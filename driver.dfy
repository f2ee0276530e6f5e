/**
 * The merge-and-partition driver (`clean_bls`, `split_bls_ogroup`).
 *
 * Each input file, already read into a table, goes through normalisation,
 * year extraction, crosswalking, peer classification and null harmonisation,
 * is stamped with its report year and projected onto the fixed output
 * columns, and is appended to the merged records. Rows labelled
 * "All Other MSA" are dropped only after all files are merged. The merged
 * records are finally split by `o_group`.
 *
 * Where the source raises an exception (no year in the path, a column
 * missing), the whole run stops: the result is a `Failure` naming the file.
 */
module Driver {
  import opened Wrappers
  import opened Tables
  import opened Lookups
  import Normalise
  import Crosswalk
  import Peers
  import Nulls
  import ReportYear
  import opened Frames

  /** One spreadsheet found under the data folder: its path and its first sheet. */
  datatype InputFile = InputFile(path: string, table: Table)

  /** One row of the output, after projection onto the fixed column list (lines 199-204). */
  datatype Record = Record(
    reportYear: int,
    area: Cell,
    areaTitle: Cell,
    peerType: Cell,
    oesCode2019: Cell,
    oesTitle2019: Cell,
    oGroup: Cell,
    stats: seq<Cell>)

  /** The statistics columns, carried as opaque cells in this order. */
  const StatColumns: seq<string> := [
    "tot_emp", "emp_prse", "jobs_1000", "loc_quotient",
    "h_mean", "a_mean", "mean_prse",
    "h_pct10", "h_pct25", "h_median", "h_pct75", "h_pct90",
    "a_pct10", "a_pct25", "a_median", "a_pct75", "a_pct90"]

  /** The projected columns other than `report_year`, which is stamped from the path. */
  const OutputColumns: seq<string> :=
    ["area", "area_title", Peers.PeerType, Crosswalk.CodeColumn, Crosswalk.TitleColumn, Crosswalk.OGroup]
    + StatColumns

  /**
   * Why a run stops. `NoFiles`: with no spreadsheet in the folder the
   * accumulator of line 180 is a table without columns, and indexing its
   * `peer_type` column at line 210 raises.
   */
  datatype Error = NoReportYear(path: string) | MissingColumn(path: string, column: string) | NoFiles

  /** The first required column that is absent, if any. */
  function FirstMissing(columns: seq<string>, required: seq<string>): (r: Option<string>)
    ensures r.None? <==> HasColumns(columns, required)
    ensures r.Some? ==> r.value in required && r.value !in columns
  {
    if required == [] then None
    else if required[0] !in columns then Some(required[0])
    else FirstMissing(columns, required[1..])
  }

  function ToRecord(columns: seq<string>, row: Row, year: int): Record {
    Record(year,
      Get(columns, row, "area"), Get(columns, row, "area_title"), Get(columns, row, Peers.PeerType),
      Get(columns, row, Crosswalk.CodeColumn), Get(columns, row, Crosswalk.TitleColumn),
      Get(columns, row, Crosswalk.OGroup),
      seq(|StatColumns|, k requires 0 <= k < |StatColumns| => Get(columns, row, StatColumns[k])))
  }

  /** Lines 197-205: stamp the report year and keep the output columns, row by row. */
  function Project(t: Table, year: int): (rs: seq<Record>)
    ensures |rs| == |t.rows|
    ensures forall i :: 0 <= i < |rs| ==> rs[i] == ToRecord(t.columns, t.rows[i], year)
  {
    seq(|t.rows|, i requires 0 <= i < |t.rows| => ToRecord(t.columns, t.rows[i], year))
  }

  /** The records one file contributes (the body of the loop at lines 187-208). */
  function FileRecords(f: InputFile, soc: SocLookup, msa: Dict): (r: Result<seq<Record>, Error>)
    requires WellFormed(f.table)
  {
    var t0 := Table(Normalise.NormalisedColumns(f.table.columns), f.table.rows);
    match ReportYear.ExtractYear(f.path)
    case None => Failure(NoReportYear(f.path))
    case Some(year) =>
      match FirstMissing(t0.columns, Crosswalk.SocColumns)
      case Some(c) => Failure(MissingColumn(f.path, c))
      case None =>
        var t1 := Crosswalk.MapSoc(t0, year, soc);
        if Peers.Area !in t1.columns then Failure(MissingColumn(f.path, Peers.Area))
        else
          var t2 := Nulls.MapNulls(Peers.MapPeerType(t1, msa));
          match FirstMissing(t2.columns, OutputColumns)
          case Some(c) => Failure(MissingColumn(f.path, c))
          case None => Success(Project(t2, year))
  }

  /**
   * A file fails with an error naming its own path, and it fails for want of
   * a report year exactly when its path holds none (line 190).
   */
  lemma FileRecordsErrors(f: InputFile, soc: SocLookup, msa: Dict)
    requires WellFormed(f.table)
    ensures FileRecords(f, soc, msa).Failure? ==>
              !FileRecords(f, soc, msa).error.NoFiles? && FileRecords(f, soc, msa).error.path == f.path
    ensures FileRecords(f, soc, msa) == Failure(NoReportYear(f.path)) <==> ReportYear.ExtractYear(f.path).None?
  {
    var r := FileRecords(f, soc, msa);
    var t0 := Table(Normalise.NormalisedColumns(f.table.columns), f.table.rows);
    if ReportYear.ExtractYear(f.path).Some? {
      var year := ReportYear.ExtractYear(f.path).value;
      var missing := FirstMissing(t0.columns, Crosswalk.SocColumns);
      if missing.Some? {
        assert r == Failure(MissingColumn(f.path, missing.value));
      } else {
        var t1 := Crosswalk.MapSoc(t0, year, soc);
        if Peers.Area !in t1.columns {
          assert r == Failure(MissingColumn(f.path, Peers.Area));
        } else {
          var t2 := Nulls.MapNulls(Peers.MapPeerType(t1, msa));
          var late := FirstMissing(t2.columns, OutputColumns);
          if late.Some? {
            assert r == Failure(MissingColumn(f.path, late.value));
          } else {
            assert r == Success(Project(t2, year));
          }
        }
      }
    }
  }

  predicate AllWellFormed(files: seq<InputFile>) {
    forall f :: f in files ==> WellFormed(f.table)
  }

  /** Line 207: one file's records appended to the accumulator; the first failure wins. */
  function Appended(acc: Result<seq<Record>, Error>, next: Result<seq<Record>, Error>): (r: Result<seq<Record>, Error>)
    ensures acc.Failure? ==> r == acc
    ensures acc.Success? && next.Failure? ==> r == next
    ensures acc.Success? && next.Success? ==> r == Success(acc.value + next.value)
  {
    match acc
    case Failure(e) => Failure(e)
    case Success(rs) =>
      match next
      case Failure(e) => Failure(e)
      case Success(more) => Success(rs + more)
  }

  /** The accumulator after the given files, in order; the first failure ends the run. */
  function Merged(files: seq<InputFile>, soc: SocLookup, msa: Dict): (r: Result<seq<Record>, Error>)
    requires AllWellFormed(files)
  {
    if files == [] then Success([])
    else
      var last := files[|files| - 1];
      assert last in files;
      Appended(Merged(files[..|files| - 1], soc, msa), FileRecords(last, soc, msa))
  }

  /** Line 210: the records whose peer type is not the catch-all label, in order. */
  function WithoutCatchAll(rs: seq<Record>): (r: seq<Record>)
    ensures forall x :: x in r <==> x in rs && x.peerType != Str(Peers.CatchAll)
  {
    if rs == [] then []
    else (if rs[0].peerType != Str(Peers.CatchAll) then [rs[0]] else []) + WithoutCatchAll(rs[1..])
  }

  /**
   * Lemma for the final filter: it keeps the records in their order, each
   * non-catch-all record as often as it was merged and no catch-all one.
   */
  lemma {:induction false} WithoutCatchAllKeepsOrder(rs: seq<Record>)
    ensures IsSubsequence(WithoutCatchAll(rs), rs)
    ensures forall x :: multiset(WithoutCatchAll(rs))[x] ==
              if x.peerType != Str(Peers.CatchAll) then multiset(rs)[x] else 0
  {
    if rs != [] {
      var rest := WithoutCatchAll(rs[1..]);
      WithoutCatchAllKeepsOrder(rs[1..]);
      var r := WithoutCatchAll(rs);
      MultisetCons(rs);
      if rs[0].peerType != Str(Peers.CatchAll) {
        assert r == [rs[0]] + rest;
        assert r[0] == rs[0] && r[1..] == rest;
        MultisetAppend([rs[0]], rest);
      } else {
        assert r == rest;
      }
    }
  }

  /**
   * `clean_bls` as written: the merged records without the catch-all rows
   * (line 210); a run over no files at all fails at that line.
   */
  function Clean(files: seq<InputFile>, soc: SocLookup, msa: Dict): (r: Result<seq<Record>, Error>)
    requires AllWellFormed(files)
    ensures files == [] <==> r == Failure(NoFiles)
    ensures r.Success? ==> Merged(files, soc, msa).Success? && IsSubsequence(r.value, Merged(files, soc, msa).value)
  {
    if files == [] then Failure(NoFiles)
    else
      match Merged(files, soc, msa)
      case Failure(e) =>
        MergedErrorNamesFile(files, soc, msa);
        Failure(e)
      case Success(rs) =>
        WithoutCatchAllKeepsOrder(rs);
        Success(WithoutCatchAll(rs))
  }

  /**
   * The run as evidently intended: an empty folder yields no records rather
   * than an error; with at least one file it is the run as written.
   */
  function CleanIntended(files: seq<InputFile>, soc: SocLookup, msa: Dict): (r: Result<seq<Record>, Error>)
    requires AllWellFormed(files)
    ensures files == [] ==> r == Success([])
    ensures files != [] ==> r == Clean(files, soc, msa)
    ensures r.Failure? ==> !r.error.NoFiles?
  {
    if files == [] then Success([]) else Clean(files, soc, msa)
  }

  /** The run as written fails on an empty folder, where the intended one returns no records. */
  lemma CleanEmptyFolder(soc: SocLookup, msa: Dict)
    ensures Clean([], soc, msa) == Failure(NoFiles)
    ensures CleanIntended([], soc, msa) == Success([])
  {
  }

  /** Once a prefix of the files fails, the whole run fails with that error. */
  lemma {:induction false} MergedFailurePersists(files: seq<InputFile>, n: nat, soc: SocLookup, msa: Dict)
    requires AllWellFormed(files) && n <= |files|
    requires Merged(files[..n], soc, msa).Failure?
    ensures Merged(files, soc, msa) == Merged(files[..n], soc, msa)
  {
    if n < |files| {
      var init := files[..|files| - 1];
      assert init[..n] == files[..n];
      MergedFailurePersists(init, n, soc, msa);
    } else {
      assert files[..n] == files;
    }
  }

  /** A failed run fails with the error of one of its files: the first one that failed. */
  lemma {:induction false} MergedFailureNamesFile(files: seq<InputFile>, soc: SocLookup, msa: Dict) returns (i: nat)
    requires AllWellFormed(files) && Merged(files, soc, msa).Failure?
    ensures i < |files| && FileRecords(files[i], soc, msa) == Merged(files, soc, msa)
  {
    var init := files[..|files| - 1];
    var last := files[|files| - 1];
    assert last in files;
    var m := Merged(init, soc, msa);
    var next := FileRecords(last, soc, msa);
    assert Merged(files, soc, msa) == Appended(m, next);
    if m.Failure? {
      i := MergedFailureNamesFile(init, soc, msa);
      assert files[i] == init[i];
    } else {
      i := |files| - 1;
    }
  }

  /** A failed run fails with an error naming one of its files, never for want of files. */
  lemma MergedErrorNamesFile(files: seq<InputFile>, soc: SocLookup, msa: Dict)
    requires AllWellFormed(files) && Merged(files, soc, msa).Failure?
    ensures !Merged(files, soc, msa).error.NoFiles?
    ensures exists f :: f in files && Merged(files, soc, msa).error.path == f.path
  {
    var i := MergedFailureNamesFile(files, soc, msa);
    var f := files[i];
    FileRecordsErrors(f, soc, msa);
    var e := Merged(files, soc, msa).error;
    assert FileRecords(f, soc, msa).error == e;
    assert f in files;
  }

  /**
   * The accumulator after one more file: the old one followed by that
   * file's records, or, when the file fails, the failure of the whole run.
   */
  lemma MergedStep(files: seq<InputFile>, i: nat, soc: SocLookup, msa: Dict, acc: seq<Record>)
    requires AllWellFormed(files) && i < |files|
    requires Merged(files[..i], soc, msa) == Success(acc)
    ensures files[i] in files
    ensures FileRecords(files[i], soc, msa).Success? ==>
              Merged(files[..i + 1], soc, msa) == Success(acc + FileRecords(files[i], soc, msa).value)
    ensures FileRecords(files[i], soc, msa).Failure? ==>
              Merged(files, soc, msa) == FileRecords(files[i], soc, msa)
  {
    var pre := files[..i + 1];
    assert pre[..|pre| - 1] == files[..i];
    assert pre[|pre| - 1] == files[i];
    var next := FileRecords(files[i], soc, msa);
    assert Merged(pre, soc, msa) == Appended(Success(acc), next);
    if next.Failure? {
      MergedFailurePersists(files, i + 1, soc, msa);
    }
  }

  /** One pass of the loop at lines 187-208 over a file that has been read. */
  method ProcessFile(f: InputFile, soc: SocLookup, msa: Dict) returns (r: Result<seq<Record>, Error>)
    requires WellFormed(f.table)
    ensures r == FileRecords(f, soc, msa)
  {
    var df := new Frame(f.table);
    df.NormaliseColumns();
    var year := ReportYear.ExtractYear(f.path);
    if year.None? {
      return Failure(NoReportYear(f.path));
    }
    var missing := FirstMissing(df.columns, Crosswalk.SocColumns);
    if missing.Some? {
      return Failure(MissingColumn(f.path, missing.value));
    }
    ghost var t0 := df.Value();
    df := df.MapSoc(year.value, soc);
    assert df.Value() == Crosswalk.MapSoc(t0, year.value, soc);
    if Peers.Area !in df.columns {
      return Failure(MissingColumn(f.path, Peers.Area));
    }
    df.MapPeerType(msa);
    df.MapNulls();
    missing := FirstMissing(df.columns, OutputColumns);
    if missing.Some? {
      return Failure(MissingColumn(f.path, missing.value));
    }
    r := Success(Project(df.Value(), year.value));
  }

  /**
   * One pass of the loop at lines 187-208 inside the run: the accumulator
   * with this file's records appended, or the failure that ends the run.
   */
  method MergeFile(files: seq<InputFile>, i: nat, soc: SocLookup, msa: Dict, merged: seq<Record>)
    returns (r: Result<seq<Record>, Error>)
    requires AllWellFormed(files) && i < |files|
    requires Merged(files[..i], soc, msa) == Success(merged)
    ensures r.Success? ==> r == Merged(files[..i + 1], soc, msa)
    ensures r.Failure? ==> r == Merged(files, soc, msa)
  {
    MergedStep(files, i, soc, msa, merged);
    var records := ProcessFile(files[i], soc, msa);
    if records.Failure? {
      return records;
    }
    r := Success(merged + records.value);
  }

  /**
   * The loop at lines 187-208 over files that have already been read: each
   * file's records are appended to the accumulator; the first failure ends
   * the run.
   */
  method MergeAll(files: seq<InputFile>, soc: SocLookup, msa: Dict) returns (r: Result<seq<Record>, Error>)
    requires AllWellFormed(files)
    ensures r == Merged(files, soc, msa)
  {
    var merged: seq<Record> := [];
    var i := 0;
    while i < |files|
      invariant 0 <= i <= |files|
      invariant Merged(files[..i], soc, msa) == Success(merged)
    {
      var next := MergeFile(files, i, soc, msa, merged);
      if next.Failure? {
        return next;
      }
      merged := next.value;
      i := i + 1;
    }
    assert files[..i] == files;
    r := Success(merged);
  }

  /** `clean_bls`: the merged records without the catch-all rows (line 210). */
  method CleanBls(files: seq<InputFile>, soc: SocLookup, msa: Dict) returns (r: Result<seq<Record>, Error>)
    requires AllWellFormed(files)
    ensures r == Clean(files, soc, msa)
  {
    var merged := MergeAll(files, soc, msa);
    if merged.Failure? {
      return Failure(merged.error);
    }
    if |files| == 0 {
      return Failure(NoFiles);
    }
    r := Success(WithoutCatchAll(merged.value));
  }

  // ---------------------------------------------------------------------
  // What the run promises

  /** After the final filter no record carries the catch-all peer type. */
  lemma CleanHasNoCatchAll(files: seq<InputFile>, soc: SocLookup, msa: Dict)
    requires AllWellFormed(files) && Clean(files, soc, msa).Success?
    ensures forall x :: x in Clean(files, soc, msa).value ==> x.peerType != Str(Peers.CatchAll)
  {
  }

  /** A file that succeeds contributes one record per row, each stamped with a year of at least 1000. */
  lemma FileRecordsShape(f: InputFile, soc: SocLookup, msa: Dict)
    requires WellFormed(f.table) && FileRecords(f, soc, msa).Success?
    ensures |FileRecords(f, soc, msa).value| == |f.table.rows|
    ensures ReportYear.ExtractYear(f.path).Some?
    ensures forall x :: x in FileRecords(f, soc, msa).value ==> x.reportYear == ReportYear.ExtractYear(f.path).value >= 1000
  {
    var t0 := Table(Normalise.NormalisedColumns(f.table.columns), f.table.rows);
    var year := ReportYear.ExtractYear(f.path).value;
    Crosswalk.MapSocKeepsRowCount(t0, year, soc);
    var t1 := Crosswalk.MapSoc(t0, year, soc);
    var t2 := Nulls.MapNulls(Peers.MapPeerType(t1, msa));
    assert |t2.rows| == |t1.rows|;
    assert FileRecords(f, soc, msa) == Success(Project(t2, year));
  }

  /** Every merged record carries the report year of the file it came from, so at least 1000. */
  lemma {:induction false} MergedYears(files: seq<InputFile>, soc: SocLookup, msa: Dict)
    requires AllWellFormed(files) && Merged(files, soc, msa).Success?
    ensures forall x :: x in Merged(files, soc, msa).value ==> x.reportYear >= 1000
  {
    if files != [] {
      var last := files[|files| - 1];
      assert last in files;
      MergedYears(files[..|files| - 1], soc, msa);
      FileRecordsShape(last, soc, msa);
    }
  }

  /** The merged records number exactly the rows of all input files. */
  function TotalRows(files: seq<InputFile>): nat {
    if files == [] then 0 else TotalRows(files[..|files| - 1]) + |files[|files| - 1].table.rows|
  }

  lemma {:induction false} MergedKeepsEveryRow(files: seq<InputFile>, soc: SocLookup, msa: Dict)
    requires AllWellFormed(files) && Merged(files, soc, msa).Success?
    ensures |Merged(files, soc, msa).value| == TotalRows(files)
  {
    if files != [] {
      var last := files[|files| - 1];
      assert last in files;
      MergedKeepsEveryRow(files[..|files| - 1], soc, msa);
      FileRecordsShape(last, soc, msa);
    }
  }

  // ---------------------------------------------------------------------
  // Partition by aggregation level (lines 226-228)

  /** The records of one `o_group`, in their original order. */
  function WithGroup(rs: seq<Record>, group: string): (r: seq<Record>)
    ensures forall x :: x in r <==> x in rs && x.oGroup == Str(group)
  {
    if rs == [] then []
    else (if rs[0].oGroup == Str(group) then [rs[0]] else []) + WithGroup(rs[1..], group)
  }

  /** Lines 226-228: the records of each aggregation level, in that order. */
  function SplitByGroup(rs: seq<Record>): (r: (seq<Record>, seq<Record>, seq<Record>))
    ensures forall x :: x in r.0 <==> x in rs && x.oGroup == Str("total")
    ensures forall x :: x in r.1 <==> x in rs && x.oGroup == Str("major")
    ensures forall x :: x in r.2 <==> x in rs && x.oGroup == Str("detailed")
  {
    (WithGroup(rs, "total"), WithGroup(rs, "major"), WithGroup(rs, "detailed"))
  }

  predicate InGroups(x: Record) {
    x.oGroup in {Str("total"), Str("major"), Str("detailed")}
  }

  /** The records whose `o_group` is one of the three levels, in order. */
  function Grouped(rs: seq<Record>): seq<Record> {
    if rs == [] then [] else (if InGroups(rs[0]) then [rs[0]] else []) + Grouped(rs[1..])
  }

  lemma {:induction false} WithGroupInOrder(rs: seq<Record>, group: string)
    ensures IsSubsequence(WithGroup(rs, group), rs)
  {
    if rs != [] {
      var rest := WithGroup(rs[1..], group);
      WithGroupInOrder(rs[1..], group);
      var r := WithGroup(rs, group);
      if rs[0].oGroup == Str(group) {
        assert r == [rs[0]] + rest;
        assert r[0] == rs[0] && r[1..] == rest;
      } else {
        assert r == rest;
      }
    }
  }

  lemma {:induction false} SplitCoversGrouped(rs: seq<Record>)
    ensures multiset(WithGroup(rs, "total")) + multiset(WithGroup(rs, "major")) + multiset(WithGroup(rs, "detailed"))
         == multiset(Grouped(rs))
  {
    if rs != [] {
      SplitCoversGrouped(rs[1..]);
    }
  }

  /** Each partition holds only rows of its own level, so no record is in two of them. */
  lemma SplitDisjoint(rs: seq<Record>)
    ensures var (total, major, detailed) := SplitByGroup(rs);
      && (forall x :: x in total ==> x.oGroup == Str("total") && x !in major && x !in detailed)
      && (forall x :: x in major ==> x.oGroup == Str("major") && x !in detailed)
      && (forall x :: x in detailed ==> x.oGroup == Str("detailed"))
  {
  }

  /**
   * Each partition keeps the original order, and together the partitions are
   * exactly the records whose level is total, major or detailed.
   */
  lemma SplitPartitions(rs: seq<Record>)
    ensures var (total, major, detailed) := SplitByGroup(rs);
      && IsSubsequence(total, rs) && IsSubsequence(major, rs) && IsSubsequence(detailed, rs)
      && multiset(total) + multiset(major) + multiset(detailed) == multiset(Grouped(rs))
  {
    WithGroupInOrder(rs, "total");
    WithGroupInOrder(rs, "major");
    WithGroupInOrder(rs, "detailed");
    SplitCoversGrouped(rs);
  }
}
