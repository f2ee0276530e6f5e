/**
 * The data model shared by every stage: a cell is either null (pandas' NaN)
 * or a string, and a data frame is an ordered list of column labels with
 * positional rows. Column access by label resolves to the first column that
 * carries the label; assigning to a label replaces that column, or appends a
 * new column at the right-hand end when the label is absent, as pandas'
 * `df[label] = ...` does.
 */
module Tables {

  datatype Cell = Null | Str(text: string)

  type Row = seq<Cell>

  datatype Table = Table(columns: seq<string>, rows: seq<Row>)

  /** Every row has one cell per column. */
  predicate WellFormed(t: Table) {
    forall r :: r in t.rows ==> |r| == |t.columns|
  }

  predicate HasColumns(columns: seq<string>, required: seq<string>) {
    forall n :: n in required ==> n in columns
  }

  /** Position of the first column labelled `name`, or |columns| when there is none. */
  function IndexOf(columns: seq<string>, name: string): (i: nat)
    ensures i <= |columns|
    ensures i < |columns| <==> name in columns
    ensures i < |columns| ==> columns[i] == name
  {
    if columns == [] then 0
    else if columns[0] == name then 0
    else 1 + IndexOf(columns[1..], name)
  }

  lemma {:induction false} IndexOfExtended(columns: seq<string>, extra: string, name: string)
    requires name in columns
    ensures IndexOf(columns + [extra], name) == IndexOf(columns, name)
  {
    assert (columns + [extra])[0] == columns[0];
    if columns[0] != name {
      assert (columns + [extra])[1..] == columns[1..] + [extra];
      IndexOfExtended(columns[1..], extra, name);
    }
  }

  /** A label appended to a list that lacks it sits at the end. */
  lemma {:induction false} IndexOfAppended(columns: seq<string>, name: string)
    requires name !in columns
    ensures IndexOf(columns + [name], name) == |columns|
  {
    if columns != [] {
      assert (columns + [name])[1..] == columns[1..] + [name];
      IndexOfAppended(columns[1..], name);
    }
  }

  /** No column before the one `IndexOf` finds carries the label. */
  lemma {:induction false} IndexOfFirst(columns: seq<string>, name: string, j: nat)
    requires j < IndexOf(columns, name)
    ensures columns[j] != name
  {
    if j > 0 {
      IndexOfFirst(columns[1..], name, j - 1);
    }
  }

  /** The cell of `row` under the label `name` (null when the label is absent). */
  function Get(columns: seq<string>, row: Row, name: string): Cell {
    var i := IndexOf(columns, name);
    if i < |row| then row[i] else Null
  }

  /** With a label repeated, `Get` reads the cell under its first occurrence. */
  lemma GetFirstColumn(columns: seq<string>, row: Row, name: string, j: nat)
    requires |row| == |columns| && j < |columns| && columns[j] == name
    requires forall k :: 0 <= k < j ==> columns[k] != name
    ensures Get(columns, row, name) == row[j]
  {
    if j < IndexOf(columns, name) {
      IndexOfFirst(columns, name, j);
    }
  }

  /** The column list after assigning to the label `name`. */
  function AddColumn(columns: seq<string>, name: string): (r: seq<string>)
    ensures name in r
    ensures |columns| <= |r| <= |columns| + 1
    ensures r[..|columns|] == columns
  {
    if name in columns then columns else columns + [name]
  }

  /** Adding a label leaves the position of every existing label unchanged. */
  lemma AddColumnKeepsIndex(columns: seq<string>, name: string, other: string)
    requires other in columns
    ensures IndexOf(AddColumn(columns, name), other) == IndexOf(columns, other)
  {
    if name !in columns {
      IndexOfExtended(columns, name, other);
    }
  }

  /** The row after assigning `v` under the label `name`. */
  function Put(columns: seq<string>, row: Row, name: string, v: Cell): (r: Row)
    requires |row| == |columns|
    ensures |r| == |AddColumn(columns, name)|
  {
    var i := IndexOf(columns, name);
    if i < |columns| then row[i := v] else row + [v]
  }

  /** After assigning `v` under `name`, reading `name` gives `v`. */
  lemma GetPut(columns: seq<string>, row: Row, name: string, v: Cell)
    requires |row| == |columns|
    ensures Get(AddColumn(columns, name), Put(columns, row, name, v), name) == v
  {
    if name !in columns {
      IndexOfAppended(columns, name);
    }
  }

  /** Assigning under `name` leaves every cell of another label in place. */
  lemma PutKeepsOthers(columns: seq<string>, row: Row, name: string, v: Cell)
    requires |row| == |columns|
    ensures forall k :: 0 <= k < |columns| && columns[k] != name ==> Put(columns, row, name, v)[k] == row[k]
  {
  }

  /** Assigning to one label leaves every other label's cell as it was. */
  lemma GetPutOther(columns: seq<string>, row: Row, name: string, v: Cell, other: string)
    requires |row| == |columns|
    requires other in columns && other != name
    ensures Get(AddColumn(columns, name), Put(columns, row, name, v), other) == Get(columns, row, other)
  {
    AddColumnKeepsIndex(columns, name, other);
  }

  /** Assigning twice to the same label keeps the last value only. */
  lemma PutPut(columns: seq<string>, row: Row, name: string, v: Cell, w: Cell)
    requires |row| == |columns|
    ensures Put(AddColumn(columns, name), Put(columns, row, name, v), name, w) == Put(columns, row, name, w)
  {
    var c1 := AddColumn(columns, name);
    if name !in columns {
      assert IndexOf(c1, name) == |columns|;
    }
  }

  lemma AppendAssoc<T>(a: seq<T>, b: seq<T>, c: seq<T>)
    ensures a + (b + c) == (a + b) + c
  {
  }

  lemma MultisetAppend<T>(a: seq<T>, b: seq<T>)
    ensures multiset(a + b) == multiset(a) + multiset(b)
  {
  }

  lemma MultisetCons<T>(s: seq<T>)
    requires s != []
    ensures multiset(s) == multiset{s[0]} + multiset(s[1..])
  {
    assert s == [s[0]] + s[1..];
  }

  /** An element added to any one of three multisets is added to their sum. */
  lemma MultisetAddOne<T>(x: multiset<T>, a: multiset<T>, b: multiset<T>, c: multiset<T>)
    ensures (x + a) + b + c == x + (a + b + c)
    ensures a + (x + b) + c == x + (a + b + c)
    ensures a + b + (x + c) == x + (a + b + c)
  {
  }

  /** `a` is `b` with some elements left out: the relative order is kept. */
  predicate IsSubsequence<T(==)>(a: seq<T>, b: seq<T>)
    decreases |b|
  {
    a == [] ||
    (b != [] && ((a[0] == b[0] && IsSubsequence(a[1..], b[1..])) || IsSubsequence(a, b[1..])))
  }
}
