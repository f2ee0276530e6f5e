/**
 * Year-aware occupation-code crosswalking (`map_soc`).
 *
 * `MapSoc` follows the source step by step: the primary map chosen by report
 * year codes the detailed rows (line 117); the detailed rows are split into
 * matched and unmatched subsets, and the unmatched ones are re-coded through
 * the 2018 -> 2019 map (lines 120-122); the other rows copy their own code and
 * title (lines 125-127); matched and unmatched rows get a title (line 131); the
 * subsets are concatenated (lines 130, 133).
 *
 * `CrosswalkedRow` states per row what the result is meant to hold, and
 * `MapSocRouting` proves that `MapSoc` is that per-row crosswalk applied to the
 * input rows regrouped as matched, then fallback, then pass-through.
 */
module Crosswalk {
  import opened Tables
  import opened Lookups

  const OGroup := "o_group"
  const OccCode := "occ_code"
  const OccTitle := "occ_title"
  const CodeColumn := "oes_code_2019"
  const TitleColumn := "oes_title_2019"

  /** The columns `map_soc` reads; without one of them it raises a KeyError. */
  const SocColumns := [OGroup, OccCode, OccTitle]

  /** The crosswalk map used for a report year (lines 107-114). */
  function SelectMapping(year: int, lk: SocLookup): (m: Dict)
    ensures 2014 <= year <= 2016 ==> m == lk.soc1019
    ensures 2017 <= year <= 2018 ==> m == lk.oes1819
    ensures year < 2014 || 2019 <= year ==> m == lk.oes1919
  {
    if year in [2014, 2015, 2016] then lk.soc1019
    else if year in [2017, 2018] then lk.oes1819
    else if year >= 2019 then lk.oes1919
    else lk.oes1919  // the default assigned at line 107
  }

  predicate IsDetailed(columns: seq<string>, row: Row) {
    Get(columns, row, OGroup) == Str("detailed")
  }

  function OutColumns(columns: seq<string>): seq<string> {
    AddColumn(AddColumn(columns, CodeColumn), TitleColumn)
  }

  predicate RowsFit(columns: seq<string>, rows: seq<Row>) {
    forall r :: r in rows ==> |r| == |columns|
  }

  // ---------------------------------------------------------------------
  // What a row is meant to become

  /** Which of the three recombined subsets a row lands in. */
  datatype Route = Matched | Fallback | PassThrough

  function RouteOf(columns: seq<string>, row: Row, primary: Dict): Route {
    if !IsDetailed(columns, row) then PassThrough
    else if Lookup(primary, Get(columns, row, OccCode)) != Null then Matched
    else Fallback
  }

  /** The new code: primary map, else 2018 -> 2019 map, for detailed rows; the row's own code otherwise. */
  function CrosswalkCode(columns: seq<string>, row: Row, year: int, lk: SocLookup): Cell {
    var occ := Get(columns, row, OccCode);
    if !IsDetailed(columns, row) then occ
    else if Lookup(SelectMapping(year, lk), occ) != Null then Lookup(SelectMapping(year, lk), occ)
    else Lookup(lk.oes1819, occ)
  }

  /** A row with its `oes_code_2019` and `oes_title_2019` cells assigned. */
  function CrosswalkedRow(columns: seq<string>, row: Row, year: int, lk: SocLookup): (r: Row)
    requires |row| == |columns|
    ensures |r| == |OutColumns(columns)|
  {
    var code := CrosswalkCode(columns, row, year, lk);
    var title := if IsDetailed(columns, row) then Lookup(lk.oes1919, code) else Get(columns, row, OccTitle);
    Put(AddColumn(columns, CodeColumn), Put(columns, row, CodeColumn, code), TitleColumn, title)
  }

  function CrosswalkedRows(columns: seq<string>, rows: seq<Row>, year: int, lk: SocLookup): (r: seq<Row>)
    requires RowsFit(columns, rows)
    ensures |r| == |rows| && RowsFit(OutColumns(columns), r)
  {
    if rows == [] then []
    else [CrosswalkedRow(columns, rows[0], year, lk)] + CrosswalkedRows(columns, rows[1..], year, lk)
  }

  /** The rows taking one route, in input order. */
  function Routed(columns: seq<string>, rows: seq<Row>, primary: Dict, route: Route): (r: seq<Row>)
    ensures forall x :: x in r ==> x in rows && RouteOf(columns, x, primary) == route
  {
    if rows == [] then []
    else (if RouteOf(columns, rows[0], primary) == route then [rows[0]] else [])
         + Routed(columns, rows[1..], primary, route)
  }

  /** The input rows regrouped as matched, then fallback, then pass-through. */
  function Regrouped(columns: seq<string>, rows: seq<Row>, primary: Dict): seq<Row> {
    Routed(columns, rows, primary, Matched)
    + Routed(columns, rows, primary, Fallback)
    + Routed(columns, rows, primary, PassThrough)
  }

  // ---------------------------------------------------------------------
  // The source's steps

  /** Line 117: detailed rows get their primary-map code, other rows null. */
  function PrimaryCodedRow(columns: seq<string>, row: Row, primary: Dict): Row
    requires |row| == |columns|
  {
    Put(columns, row, CodeColumn,
        if IsDetailed(columns, row) then Lookup(primary, Get(columns, row, OccCode)) else Null)
  }

  function PrimaryCoded(columns: seq<string>, rows: seq<Row>, primary: Dict): (r: seq<Row>)
    requires RowsFit(columns, rows)
    ensures |r| == |rows| && RowsFit(AddColumn(columns, CodeColumn), r)
  {
    if rows == [] then []
    else [PrimaryCodedRow(columns, rows[0], primary)] + PrimaryCoded(columns, rows[1..], primary)
  }

  /** Lines 120, 121 and 125 select rows of the coded frame by `o_group` and code. */
  function CodedRoute(columns1: seq<string>, row: Row): Route {
    if !IsDetailed(columns1, row) then PassThrough
    else if Get(columns1, row, CodeColumn) != Null then Matched
    else Fallback
  }

  function Subset(columns1: seq<string>, rows: seq<Row>, route: Route): (r: seq<Row>)
    ensures forall x :: x in r ==> x in rows
  {
    if rows == [] then []
    else (if CodedRoute(columns1, rows[0]) == route then [rows[0]] else [])
         + Subset(columns1, rows[1..], route)
  }

  /** Line 122: unmatched detailed rows are re-coded through the 2018 -> 2019 map. */
  function WithFallbackCode(columns1: seq<string>, rows: seq<Row>, fallback: Dict): (r: seq<Row>)
    requires RowsFit(columns1, rows) && CodeColumn in columns1
    ensures |r| == |rows| && RowsFit(columns1, r)
  {
    if rows == [] then []
    else [Put(columns1, rows[0], CodeColumn, Lookup(fallback, Get(columns1, rows[0], OccCode)))]
         + WithFallbackCode(columns1, rows[1..], fallback)
  }

  /** Lines 126-127: total and major rows copy their own code and title. */
  function WithOwnCode(columns1: seq<string>, rows: seq<Row>): (r: seq<Row>)
    requires RowsFit(columns1, rows) && CodeColumn in columns1
    ensures |r| == |rows| && RowsFit(AddColumn(columns1, TitleColumn), r)
  {
    if rows == [] then []
    else
      var coded := Put(columns1, rows[0], CodeColumn, Get(columns1, rows[0], OccCode));
      [Put(columns1, coded, TitleColumn, Get(columns1, rows[0], OccTitle))]
      + WithOwnCode(columns1, rows[1..])
  }

  /** Line 131: the title is the code looked up in `titles`. */
  function WithTitle(columns1: seq<string>, rows: seq<Row>, titles: Dict): (r: seq<Row>)
    requires RowsFit(columns1, rows)
    ensures |r| == |rows| && RowsFit(AddColumn(columns1, TitleColumn), r)
  {
    if rows == [] then []
    else [Put(columns1, rows[0], TitleColumn, Lookup(titles, Get(columns1, rows[0], CodeColumn)))]
         + WithTitle(columns1, rows[1..], titles)
  }

  /** Lines 120-133: split the coded frame, finish each subset and concatenate. */
  function Recombine(columns1: seq<string>, coded: seq<Row>, lk: SocLookup): (r: seq<Row>)
    requires RowsFit(columns1, coded) && CodeColumn in columns1
    ensures RowsFit(AddColumn(columns1, TitleColumn), r)
  {
    var matched := Subset(columns1, coded, Matched);
    var missing := WithFallbackCode(columns1, Subset(columns1, coded, Fallback), lk.oes1819);
    var totals := WithOwnCode(columns1, Subset(columns1, coded, PassThrough));
    WithTitle(columns1, matched + missing, lk.oes1919) + totals
  }

  /** `map_soc` as written. */
  function MapSoc(t: Table, year: int, lk: SocLookup): (r: Table)
    requires WellFormed(t) && HasColumns(t.columns, SocColumns)
    ensures WellFormed(r) && r.columns == OutColumns(t.columns)
  {
    var columns1 := AddColumn(t.columns, CodeColumn);
    var coded := PrimaryCoded(t.columns, t.rows, SelectMapping(year, lk));
    Table(AddColumn(columns1, TitleColumn), Recombine(columns1, coded, lk))
  }

  // ---------------------------------------------------------------------
  // MapSoc is the per-row crosswalk over the regrouped rows

  lemma PrimaryCodedRowReads(columns: seq<string>, row: Row, primary: Dict)
    requires |row| == |columns| && HasColumns(columns, SocColumns)
    ensures var c := PrimaryCodedRow(columns, row, primary); var columns1 := AddColumn(columns, CodeColumn);
      && Get(columns1, c, OGroup) == Get(columns, row, OGroup)
      && Get(columns1, c, OccCode) == Get(columns, row, OccCode)
      && Get(columns1, c, OccTitle) == Get(columns, row, OccTitle)
      && CodedRoute(columns1, c) == RouteOf(columns, row, primary)
  {
    var v := if IsDetailed(columns, row) then Lookup(primary, Get(columns, row, OccCode)) else Null;
    GetPutOther(columns, row, CodeColumn, v, OGroup);
    GetPutOther(columns, row, CodeColumn, v, OccCode);
    GetPutOther(columns, row, CodeColumn, v, OccTitle);
  }

  /** Selecting a subset of the coded frame is coding the rows of that route. */
  lemma {:induction false} SubsetOfCoded(columns: seq<string>, rows: seq<Row>, primary: Dict, route: Route)
    requires RowsFit(columns, rows) && HasColumns(columns, SocColumns)
    ensures Subset(AddColumn(columns, CodeColumn), PrimaryCoded(columns, rows, primary), route)
         == PrimaryCoded(columns, Routed(columns, rows, primary, route), primary)
  {
    if rows != [] {
      var columns1 := AddColumn(columns, CodeColumn);
      PrimaryCodedRowReads(columns, rows[0], primary);
      SubsetOfCoded(columns, rows[1..], primary, route);
      var c := PrimaryCoded(columns, rows, primary);
      assert c[0] == PrimaryCodedRow(columns, rows[0], primary);
      assert c[1..] == PrimaryCoded(columns, rows[1..], primary);
      var rest := Routed(columns, rows[1..], primary, route);
      if RouteOf(columns, rows[0], primary) == route {
        assert Routed(columns, rows, primary, route) == [rows[0]] + rest;
        assert ([rows[0]] + rest)[1..] == rest;
      } else {
        assert Routed(columns, rows, primary, route) == rest;
      }
    }
  }

  lemma {:induction false} WithTitleAppend(columns1: seq<string>, a: seq<Row>, b: seq<Row>, titles: Dict)
    requires RowsFit(columns1, a) && RowsFit(columns1, b)
    ensures WithTitle(columns1, a + b, titles) == WithTitle(columns1, a, titles) + WithTitle(columns1, b, titles)
  {
    if a == [] {
      assert a + b == b;
    } else {
      var ab := a + b;
      assert ab[0] == a[0] && ab[1..] == a[1..] + b;
      WithTitleAppend(columns1, a[1..], b, titles);
      var head := [Put(columns1, a[0], TitleColumn, Lookup(titles, Get(columns1, a[0], CodeColumn)))];
      AppendAssoc(head, WithTitle(columns1, a[1..], titles), WithTitle(columns1, b, titles));
    }
  }

  lemma {:induction false} CrosswalkedRowsAppend(columns: seq<string>, a: seq<Row>, b: seq<Row>, year: int, lk: SocLookup)
    requires RowsFit(columns, a) && RowsFit(columns, b)
    ensures CrosswalkedRows(columns, a + b, year, lk)
         == CrosswalkedRows(columns, a, year, lk) + CrosswalkedRows(columns, b, year, lk)
  {
    if a == [] {
      assert a + b == b;
    } else {
      var ab := a + b;
      assert ab[0] == a[0] && ab[1..] == a[1..] + b;
      CrosswalkedRowsAppend(columns, a[1..], b, year, lk);
      var head := [CrosswalkedRow(columns, a[0], year, lk)];
      AppendAssoc(head, CrosswalkedRows(columns, a[1..], year, lk), CrosswalkedRows(columns, b, year, lk));
    }
  }

  lemma {:induction false} MatchedBranch(columns: seq<string>, rows: seq<Row>, year: int, lk: SocLookup)
    requires RowsFit(columns, rows) && HasColumns(columns, SocColumns)
    requires forall x :: x in rows ==> RouteOf(columns, x, SelectMapping(year, lk)) == Matched
    ensures WithTitle(AddColumn(columns, CodeColumn), PrimaryCoded(columns, rows, SelectMapping(year, lk)), lk.oes1919)
         == CrosswalkedRows(columns, rows, year, lk)
  {
    if rows != [] {
      var primary := SelectMapping(year, lk);
      var columns1 := AddColumn(columns, CodeColumn);
      var row := rows[0];
      assert row in rows;
      var code := CrosswalkCode(columns, row, year, lk);
      assert IsDetailed(columns, row) && code == Lookup(primary, Get(columns, row, OccCode));
      var coded := PrimaryCoded(columns, rows, primary);
      var c := PrimaryCodedRow(columns, row, primary);
      assert c == Put(columns, row, CodeColumn, code);
      GetPut(columns, row, CodeColumn, code);
      assert coded[0] == c;
      assert coded[1..] == PrimaryCoded(columns, rows[1..], primary);
      var head := Put(columns1, c, TitleColumn, Lookup(lk.oes1919, code));
      assert head == CrosswalkedRow(columns, row, year, lk);
      assert WithTitle(columns1, coded, lk.oes1919) == [head] + WithTitle(columns1, coded[1..], lk.oes1919);
      MatchedBranch(columns, rows[1..], year, lk);
    }
  }

  lemma {:induction false} FallbackBranch(columns: seq<string>, rows: seq<Row>, year: int, lk: SocLookup)
    requires RowsFit(columns, rows) && HasColumns(columns, SocColumns)
    requires forall x :: x in rows ==> RouteOf(columns, x, SelectMapping(year, lk)) == Fallback
    ensures var columns1 := AddColumn(columns, CodeColumn);
      WithTitle(columns1, WithFallbackCode(columns1, PrimaryCoded(columns, rows, SelectMapping(year, lk)), lk.oes1819), lk.oes1919)
      == CrosswalkedRows(columns, rows, year, lk)
  {
    if rows != [] {
      var primary := SelectMapping(year, lk);
      var columns1 := AddColumn(columns, CodeColumn);
      var row := rows[0];
      assert row in rows;
      var occ := Get(columns, row, OccCode);
      assert IsDetailed(columns, row) && Lookup(primary, occ) == Null;
      PrimaryCodedRowReads(columns, row, primary);
      var coded := PrimaryCoded(columns, rows, primary);
      var c := PrimaryCodedRow(columns, row, primary);
      assert c == Put(columns, row, CodeColumn, Null);
      assert coded[0] == c;
      assert coded[1..] == PrimaryCoded(columns, rows[1..], primary);
      var code := Lookup(lk.oes1819, occ);
      assert code == CrosswalkCode(columns, row, year, lk);
      PutPut(columns, row, CodeColumn, Null, code);
      var recoded := Put(columns1, c, CodeColumn, code);
      assert recoded == Put(columns, row, CodeColumn, code);
      GetPut(columns, row, CodeColumn, code);
      var fb := WithFallbackCode(columns1, coded, lk.oes1819);
      assert fb == [recoded] + WithFallbackCode(columns1, coded[1..], lk.oes1819);
      var head := Put(columns1, recoded, TitleColumn, Lookup(lk.oes1919, code));
      assert head == CrosswalkedRow(columns, row, year, lk);
      assert WithTitle(columns1, fb, lk.oes1919) == [head] + WithTitle(columns1, fb[1..], lk.oes1919);
      FallbackBranch(columns, rows[1..], year, lk);
    }
  }

  lemma {:induction false} PassThroughBranch(columns: seq<string>, rows: seq<Row>, year: int, lk: SocLookup)
    requires RowsFit(columns, rows) && HasColumns(columns, SocColumns)
    requires forall x :: x in rows ==> RouteOf(columns, x, SelectMapping(year, lk)) == PassThrough
    ensures WithOwnCode(AddColumn(columns, CodeColumn), PrimaryCoded(columns, rows, SelectMapping(year, lk)))
         == CrosswalkedRows(columns, rows, year, lk)
  {
    if rows != [] {
      var primary := SelectMapping(year, lk);
      var row := rows[0];
      assert row in rows;
      assert !IsDetailed(columns, row);
      PrimaryCodedRowReads(columns, row, primary);
      var columns1 := AddColumn(columns, CodeColumn);
      var coded := PrimaryCoded(columns, rows, primary);
      var c := PrimaryCodedRow(columns, row, primary);
      assert c == Put(columns, row, CodeColumn, Null);
      assert coded[0] == c;
      assert coded[1..] == PrimaryCoded(columns, rows[1..], primary);
      var occ := Get(columns, row, OccCode);
      PutPut(columns, row, CodeColumn, Null, occ);
      var recoded := Put(columns1, c, CodeColumn, Get(columns1, c, OccCode));
      assert recoded == Put(columns, row, CodeColumn, occ);
      var head := Put(columns1, recoded, TitleColumn, Get(columns1, c, OccTitle));
      assert head == CrosswalkedRow(columns, row, year, lk);
      assert WithOwnCode(columns1, coded) == [head] + WithOwnCode(columns1, coded[1..]);
      PassThroughBranch(columns, rows[1..], year, lk);
    }
  }

  /**
   * `map_soc` computes, for each input row, exactly the crosswalked row, with
   * the rows regrouped as matched detailed rows, then fallback detailed rows,
   * then all other rows.
   */
  lemma MapSocRouting(t: Table, year: int, lk: SocLookup)
    requires WellFormed(t) && HasColumns(t.columns, SocColumns)
    ensures MapSoc(t, year, lk).rows
         == CrosswalkedRows(t.columns, Regrouped(t.columns, t.rows, SelectMapping(year, lk)), year, lk)
  {
    var primary := SelectMapping(year, lk);
    var columns1 := AddColumn(t.columns, CodeColumn);
    var m := Routed(t.columns, t.rows, primary, Matched);
    var f := Routed(t.columns, t.rows, primary, Fallback);
    var p := Routed(t.columns, t.rows, primary, PassThrough);
    SubsetOfCoded(t.columns, t.rows, primary, Matched);
    SubsetOfCoded(t.columns, t.rows, primary, Fallback);
    SubsetOfCoded(t.columns, t.rows, primary, PassThrough);
    MatchedBranch(t.columns, m, year, lk);
    FallbackBranch(t.columns, f, year, lk);
    PassThroughBranch(t.columns, p, year, lk);
    WithTitleAppend(columns1, PrimaryCoded(t.columns, m, primary),
      WithFallbackCode(columns1, PrimaryCoded(t.columns, f, primary), lk.oes1819), lk.oes1919);
    CrosswalkedRowsAppend(t.columns, m, f, year, lk);
    CrosswalkedRowsAppend(t.columns, m + f, p, year, lk);
  }

  // ---------------------------------------------------------------------
  // Properties of the regrouping and of each crosswalked row

  lemma RoutedStep(columns: seq<string>, rows: seq<Row>, primary: Dict, route: Route)
    requires rows != []
    ensures multiset(Routed(columns, rows, primary, route))
         == (if RouteOf(columns, rows[0], primary) == route then multiset{rows[0]} else multiset{})
          + multiset(Routed(columns, rows[1..], primary, route))
  {
    var own := if RouteOf(columns, rows[0], primary) == route then [rows[0]] else [];
    MultisetAppend(own, Routed(columns, rows[1..], primary, route));
  }

  lemma {:induction false} RoutedCover(columns: seq<string>, rows: seq<Row>, primary: Dict)
    ensures multiset(Routed(columns, rows, primary, Matched))
          + multiset(Routed(columns, rows, primary, Fallback))
          + multiset(Routed(columns, rows, primary, PassThrough)) == multiset(rows)
  {
    if rows != [] {
      RoutedCover(columns, rows[1..], primary);
      RoutedStep(columns, rows, primary, Matched);
      RoutedStep(columns, rows, primary, Fallback);
      RoutedStep(columns, rows, primary, PassThrough);
      MultisetCons(rows);
      MultisetAddOne(multiset{rows[0]},
        multiset(Routed(columns, rows[1..], primary, Matched)),
        multiset(Routed(columns, rows[1..], primary, Fallback)),
        multiset(Routed(columns, rows[1..], primary, PassThrough)));
    }
  }

  /** Regrouping neither drops nor adds a row. */
  lemma RegroupedIsPermutation(columns: seq<string>, rows: seq<Row>, primary: Dict)
    ensures multiset(Regrouped(columns, rows, primary)) == multiset(rows)
    ensures |Regrouped(columns, rows, primary)| == |rows|
  {
    RoutedCover(columns, rows, primary);
    assert |multiset(Regrouped(columns, rows, primary))| == |Regrouped(columns, rows, primary)|;
  }

  /** Each group keeps the input order of its rows. */
  lemma {:induction false} RoutedInInputOrder(columns: seq<string>, rows: seq<Row>, primary: Dict, route: Route)
    ensures IsSubsequence(Routed(columns, rows, primary, route), rows)
  {
    if rows != [] {
      var rest := Routed(columns, rows[1..], primary, route);
      RoutedInInputOrder(columns, rows[1..], primary, route);
      if RouteOf(columns, rows[0], primary) == route {
        var r := Routed(columns, rows, primary, route);
        assert r == [rows[0]] + rest;
        assert r[0] == rows[0] && r[1..] == rest;
      } else {
        assert Routed(columns, rows, primary, route) == rest;
      }
    }
  }

  /** `map_soc` keeps every row: as many rows come out as went in. */
  lemma MapSocKeepsRowCount(t: Table, year: int, lk: SocLookup)
    requires WellFormed(t) && HasColumns(t.columns, SocColumns)
    ensures |MapSoc(t, year, lk).rows| == |t.rows|
  {
    MapSocRouting(t, year, lk);
    RegroupedIsPermutation(t.columns, t.rows, SelectMapping(year, lk));
  }

  /**
   * What the crosswalk writes into a row: detailed rows get the primary map's
   * code, else the 2018 -> 2019 map's code, else null, and the code's entry in
   * the '1919' map as title; other rows copy `occ_code` and `occ_title`. No
   * other cell changes.
   */
  lemma CrosswalkedRowFields(columns: seq<string>, row: Row, year: int, lk: SocLookup)
    requires |row| == |columns| && HasColumns(columns, SocColumns)
    ensures var r := CrosswalkedRow(columns, row, year, lk);
            var out := OutColumns(columns);
            var occ := Get(columns, row, OccCode);
            var primary := SelectMapping(year, lk);
      && (IsDetailed(columns, row) && Lookup(primary, occ) != Null ==> Get(out, r, CodeColumn) == Lookup(primary, occ))
      && (IsDetailed(columns, row) && Lookup(primary, occ) == Null ==> Get(out, r, CodeColumn) == Lookup(lk.oes1819, occ))
      && (IsDetailed(columns, row) ==> Get(out, r, TitleColumn) == Lookup(lk.oes1919, Get(out, r, CodeColumn)))
      && (!IsDetailed(columns, row) ==> Get(out, r, CodeColumn) == occ)
      && (!IsDetailed(columns, row) ==> Get(out, r, TitleColumn) == Get(columns, row, OccTitle))
      && (forall k :: 0 <= k < |columns| && columns[k] != CodeColumn && columns[k] != TitleColumn ==> r[k] == row[k])
  {
    var columns1 := AddColumn(columns, CodeColumn);
    var code := CrosswalkCode(columns, row, year, lk);
    var coded := Put(columns, row, CodeColumn, code);
    var title := if IsDetailed(columns, row) then Lookup(lk.oes1919, code) else Get(columns, row, OccTitle);
    GetPut(columns, row, CodeColumn, code);
    GetPut(columns1, coded, TitleColumn, title);
    GetPutOther(columns1, coded, TitleColumn, title, CodeColumn);
    PutKeepsOthers(columns, row, CodeColumn, code);
    PutKeepsOthers(columns1, coded, TitleColumn, title);
  }

  // ---------------------------------------------------------------------
  // The title of a detailed row (line 131)

  /**
   * As written, a detailed row's title is its code looked up in the '1919'
   * map, which sends each 2019 code to itself: the title column receives the
   * code again (or null), never a title.
   */
  lemma DetailedTitleIsCode(xrows: seq<CrosswalkRow>, columns: seq<string>, row: Row, year: int)
    requires |row| == |columns| && HasColumns(columns, SocColumns) && IsDetailed(columns, row)
    ensures var lk := LoadSocLookup(xrows);
            var r := CrosswalkedRow(columns, row, year, lk);
            var out := OutColumns(columns);
      Get(out, r, TitleColumn) == Get(out, r, CodeColumn) || Get(out, r, TitleColumn) == Null
  {
    var lk := LoadSocLookup(xrows);
    SocIdentityMap(xrows);
    CrosswalkedRowFields(columns, row, year, lk);
  }

  /** The 2016 detailed row of the counterexample, crosswalked with any lookup that sends 15-1132 to 15-1252. */
  lemma CounterexampleRow(lk: SocLookup)
    requires Lookup(lk.soc1019, Str("15-1132")) == Str("15-1252")
    requires Lookup(lk.oes1919, Str("15-1252")) == Str("15-1252")
    ensures var columns := [OGroup, OccCode, OccTitle];
            var row := [Str("detailed"), Str("15-1132"), Str("Software Developers, Applications")];
            var r := CrosswalkedRow(columns, row, 2016, lk);
      && Get(OutColumns(columns), r, CodeColumn) == Str("15-1252")
      && Get(OutColumns(columns), r, TitleColumn) == Str("15-1252")
  {
    var columns := [OGroup, OccCode, OccTitle];
    var row := [Str("detailed"), Str("15-1132"), Str("Software Developers, Applications")];
    assert IsDetailed(columns, row);
    assert Get(columns, row, OccCode) == Str("15-1132");
    CrosswalkedRowFields(columns, row, 2016, lk);
  }

  /**
   * A 2016 detailed row whose 2010 code the crosswalk maps to 15-1252 gets
   * the code 15-1252, and the title "15-1252" instead of the title the
   * crosswalk lists for it.
   */
  lemma TitleCounterexample()
    ensures var xrows := [CrosswalkRow(Str("15-1252"), Str("Software Developers"), Null, Null,
                                       Null, Null, Str("15-1132"), Null, Null)];
            var lk := LoadSocLookup(xrows);
            var columns := [OGroup, OccCode, OccTitle];
            var row := [Str("detailed"), Str("15-1132"), Str("Software Developers, Applications")];
            var r := CrosswalkedRow(columns, row, 2016, lk);
      && Get(OutColumns(columns), r, CodeColumn) == Str("15-1252")
      && Get(OutColumns(columns), r, TitleColumn) == Str("15-1252")
      && Lookup(lk.oes19, Str("15-1252")) == Str("Software Developers")
  {
    var xrows := [CrosswalkRow(Str("15-1252"), Str("Software Developers"), Null, Null,
                               Null, Null, Str("15-1132"), Null, Null)];
    var lk := LoadSocLookup(xrows);
    Soc1019LastRow(xrows, 0);
    Oes19LastRow(xrows, 0);
    SocIdentityMap(xrows);
    assert xrows[0].oesCode2019 == Str("15-1252");
    assert "15-1252" in lk.oes1919;
    CounterexampleRow(lk);
  }

  /** The evidently intended row: the title is the code looked up in the code -> title map. */
  function CrosswalkedRowIntended(columns: seq<string>, row: Row, year: int, lk: SocLookup): (r: Row)
    requires |row| == |columns| && HasColumns(columns, SocColumns)
    ensures |r| == |OutColumns(columns)|
    ensures Get(OutColumns(columns), r, CodeColumn) == CrosswalkCode(columns, row, year, lk)
    ensures IsDetailed(columns, row) ==> Get(OutColumns(columns), r, TitleColumn) == Lookup(lk.oes19, CrosswalkCode(columns, row, year, lk))
    ensures !IsDetailed(columns, row) ==> Get(OutColumns(columns), r, TitleColumn) == Get(columns, row, OccTitle)
    ensures forall k :: 0 <= k < |columns| && columns[k] != CodeColumn && columns[k] != TitleColumn ==> r[k] == row[k]
  {
    var code := CrosswalkCode(columns, row, year, lk);
    var title := if IsDetailed(columns, row) then Lookup(lk.oes19, code) else Get(columns, row, OccTitle);
    var coded := Put(columns, row, CodeColumn, code);
    GetPut(columns, row, CodeColumn, code);
    GetPut(AddColumn(columns, CodeColumn), coded, TitleColumn, title);
    GetPutOther(AddColumn(columns, CodeColumn), coded, TitleColumn, title, CodeColumn);
    PutKeepsOthers(columns, row, CodeColumn, code);
    PutKeepsOthers(AddColumn(columns, CodeColumn), coded, TitleColumn, title);
    Put(AddColumn(columns, CodeColumn), coded, TitleColumn, title)
  }

  /**
   * With the intended lookup, a detailed row whose new code appears in the
   * crosswalk gets the title on the crosswalk's last row for that code.
   */
  lemma IntendedTitleFromCrosswalk(xrows: seq<CrosswalkRow>, i: nat, columns: seq<string>, row: Row, year: int)
    requires |row| == |columns| && HasColumns(columns, SocColumns) && IsDetailed(columns, row)
    requires i < |xrows| && xrows[i].oesCode2019.Str?
    requires CrosswalkCode(columns, row, year, LoadSocLookup(xrows)) == xrows[i].oesCode2019
    requires forall j :: i < j < |xrows| ==> xrows[j].oesCode2019 != xrows[i].oesCode2019
    ensures Get(OutColumns(columns), CrosswalkedRowIntended(columns, row, year, LoadSocLookup(xrows)), TitleColumn)
         == xrows[i].oesTitle2019
  {
    Oes19LastRow(xrows, i);
  }
}
