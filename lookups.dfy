/**
 * The two reference lookups (`load_msa_lookup`, `load_oes_lookup`), built
 * from rows that have already been read. Each map is Python's
 * `dict(zip(keys, values))`: a key that repeats takes the value of its LAST
 * row. A null key (an empty spreadsheet cell) is treated as no key at all.
 */
module Lookups {
  import opened Tables

  type Dict = map<string, Cell>

  /** `dict(zip(...))` over (key, value) pairs: later pairs overwrite earlier ones. */
  function DictOf(pairs: seq<(Cell, Cell)>): Dict
  {
    if pairs == [] then map[]
    else
      var d := DictOf(pairs[..|pairs| - 1]);
      var (k, v) := pairs[|pairs| - 1];
      if k.Str? then d[k.text := v] else d
  }

  /** A key is in the dictionary exactly when some pair carries it. */
  lemma {:induction false} DictOfKeys(pairs: seq<(Cell, Cell)>, key: string)
    ensures key in DictOf(pairs) <==> exists i :: 0 <= i < |pairs| && pairs[i].0 == Str(key)
  {
    if pairs != [] {
      var init := pairs[..|pairs| - 1];
      DictOfKeys(init, key);
      if key in DictOf(init) {
        var i :| 0 <= i < |init| && init[i].0 == Str(key);
        assert pairs[i].0 == Str(key);
      }
      if exists i :: 0 <= i < |pairs| && pairs[i].0 == Str(key) {
        var i :| 0 <= i < |pairs| && pairs[i].0 == Str(key);
        if i < |init| {
          assert init[i].0 == Str(key);
        }
      }
    }
  }

  /** The value stored under a key is the value of the last pair that carries it. */
  lemma {:induction false} DictOfLastWins(pairs: seq<(Cell, Cell)>, i: nat)
    requires i < |pairs| && pairs[i].0.Str?
    requires forall j :: i < j < |pairs| ==> pairs[j].0 != pairs[i].0
    ensures pairs[i].0.text in DictOf(pairs)
    ensures DictOf(pairs)[pairs[i].0.text] == pairs[i].1
  {
    var init := pairs[..|pairs| - 1];
    if i < |pairs| - 1 {
      assert pairs[|pairs| - 1].0 != pairs[i].0;
      DictOfLastWins(init, i);
    }
  }

  /** A dictionary built from pairs whose value equals their key maps every key to itself. */
  lemma {:induction false} DictOfDiagonal(pairs: seq<(Cell, Cell)>)
    requires forall i :: 0 <= i < |pairs| ==> pairs[i].1 == pairs[i].0
    ensures forall k :: k in DictOf(pairs) ==> DictOf(pairs)[k] == Str(k)
  {
    if pairs != [] {
      DictOfDiagonal(pairs[..|pairs| - 1]);
    }
  }

  /** Two dictionaries built over the same key column have the same keys. */
  lemma {:induction false} DictOfSameKeys(p: seq<(Cell, Cell)>, q: seq<(Cell, Cell)>)
    requires |p| == |q|
    requires forall i :: 0 <= i < |p| ==> p[i].0 == q[i].0
    ensures DictOf(p).Keys == DictOf(q).Keys
  {
    if p != [] {
      DictOfSameKeys(p[..|p| - 1], q[..|q| - 1]);
    }
  }

  /**
   * `Series.map(dict)`: the value stored for the cell, or null when the cell is
   * null or not a key. A key stored with a null value reads as null too.
   */
  function Lookup(d: Dict, key: Cell): (r: Cell)
    ensures key.Str? && key.text in d ==> r == d[key.text]
    ensures (key.Null? || key.text !in d) ==> r == Null
  {
    if key.Str? && key.text in d then d[key.text] else Null
  }

  // ---------------------------------------------------------------------
  // Peer-group lookup (lines 24-25)

  datatype MsaRow = MsaRow(area: Cell, peerType: Cell)

  function MsaPairs(rows: seq<MsaRow>): (ps: seq<(Cell, Cell)>)
    ensures |ps| == |rows|
    ensures forall i :: 0 <= i < |rows| ==> ps[i] == (rows[i].area, rows[i].peerType)
  {
    seq(|rows|, i requires 0 <= i < |rows| => (rows[i].area, rows[i].peerType))
  }

  lemma MsaKeys(rows: seq<MsaRow>)
    ensures forall area :: area in DictOf(MsaPairs(rows)) <==> exists i :: 0 <= i < |rows| && rows[i].area == Str(area)
  {
    forall area: string
      ensures area in DictOf(MsaPairs(rows)) <==> exists i :: 0 <= i < |rows| && rows[i].area == Str(area)
    {
      DictOfKeys(MsaPairs(rows), area);
    }
  }

  /** area -> peer_type, the last row for an area winning; exactly the non-null areas are keys. */
  function LoadMsaLookup(rows: seq<MsaRow>): (r: Dict)
    ensures forall area :: area in r <==> exists i :: 0 <= i < |rows| && rows[i].area == Str(area)
  {
    MsaKeys(rows);
    DictOf(MsaPairs(rows))
  }

  /** An area's peer group is the peer type on its last row in the reference table. */
  lemma MsaLookupLastRow(rows: seq<MsaRow>, i: nat)
    requires i < |rows| && rows[i].area.Str?
    requires forall j :: i < j < |rows| ==> rows[j].area != rows[i].area
    ensures Lookup(LoadMsaLookup(rows), rows[i].area) == rows[i].peerType
  {
    DictOfLastWins(MsaPairs(rows), i);
  }

  // ---------------------------------------------------------------------
  // Occupation-code crosswalk (lines 52-67)

  /** One row of the crosswalk table, its columns renamed as at lines 52-55. */
  datatype CrosswalkRow = CrosswalkRow(
    oesCode2019: Cell, oesTitle2019: Cell,
    socCode2018: Cell, socTitle2018: Cell,
    oesCode2018: Cell, oesTitle2018: Cell,
    socCode2010: Cell, socTitle2010: Cell,
    notes: Cell)

  /** The four crosswalk maps, keyed in the source by '1019', '1819', '1919' and '19'. */
  datatype SocLookup = SocLookup(soc1019: Dict, oes1819: Dict, oes1919: Dict, oes19: Dict)

  datatype Field = OesCode2019 | OesTitle2019 | OesCode2018 | SocCode2010

  function FieldOf(row: CrosswalkRow, f: Field): Cell {
    match f
    case OesCode2019 => row.oesCode2019
    case OesTitle2019 => row.oesTitle2019
    case OesCode2018 => row.oesCode2018
    case SocCode2010 => row.socCode2010
  }

  /** `zip(df[key], df[value])` over the crosswalk rows. */
  function Zip(rows: seq<CrosswalkRow>, key: Field, value: Field): (ps: seq<(Cell, Cell)>)
    ensures |ps| == |rows|
    ensures forall i :: 0 <= i < |rows| ==> ps[i] == (FieldOf(rows[i], key), FieldOf(rows[i], value))
  {
    seq(|rows|, i requires 0 <= i < |rows| => (FieldOf(rows[i], key), FieldOf(rows[i], value)))
  }

  /** A map built over a key column knows exactly the non-null codes of that column. */
  lemma ZipKeys(rows: seq<CrosswalkRow>, key: Field, value: Field)
    ensures forall k :: k in DictOf(Zip(rows, key, value)) <==> exists i :: 0 <= i < |rows| && FieldOf(rows[i], key) == Str(k)
  {
    forall k: string
      ensures k in DictOf(Zip(rows, key, value)) <==> exists i :: 0 <= i < |rows| && FieldOf(rows[i], key) == Str(k)
    {
      DictOfKeys(Zip(rows, key, value), k);
    }
  }

  /**
   * The four maps of lines 59-67. Each knows exactly the codes that appear
   * in its key column: 2010 SOC codes, 2018 OES codes, and 2019 OES codes
   * for the last two.
   */
  function LoadSocLookup(rows: seq<CrosswalkRow>): (r: SocLookup)
    ensures forall k :: k in r.soc1019 <==> exists i :: 0 <= i < |rows| && rows[i].socCode2010 == Str(k)
    ensures forall k :: k in r.oes1819 <==> exists i :: 0 <= i < |rows| && rows[i].oesCode2018 == Str(k)
    ensures forall k :: k in r.oes1919 <==> exists i :: 0 <= i < |rows| && rows[i].oesCode2019 == Str(k)
    ensures forall k :: k in r.oes19 <==> exists i :: 0 <= i < |rows| && rows[i].oesCode2019 == Str(k)
  {
    ZipKeys(rows, SocCode2010, OesCode2019);
    ZipKeys(rows, OesCode2018, OesCode2019);
    ZipKeys(rows, OesCode2019, OesCode2019);
    ZipKeys(rows, OesCode2019, OesTitle2019);
    SocLookup(
      DictOf(Zip(rows, SocCode2010, OesCode2019)),
      DictOf(Zip(rows, OesCode2018, OesCode2019)),
      DictOf(Zip(rows, OesCode2019, OesCode2019)),
      DictOf(Zip(rows, OesCode2019, OesTitle2019)))
  }

  /**
   * The '1919' map sends every 2019 code to itself, and it knows exactly the
   * codes the '19' (code -> title) map knows.
   */
  lemma SocIdentityMap(rows: seq<CrosswalkRow>)
    ensures forall k :: k in LoadSocLookup(rows).oes1919 ==> LoadSocLookup(rows).oes1919[k] == Str(k)
    ensures LoadSocLookup(rows).oes1919.Keys == LoadSocLookup(rows).oes19.Keys
  {
    DictOfDiagonal(Zip(rows, OesCode2019, OesCode2019));
    DictOfSameKeys(Zip(rows, OesCode2019, OesCode2019), Zip(rows, OesCode2019, OesTitle2019));
  }

  /**
   * The 2010 -> 2019 map sends a 2010 code to the 2019 code on the last
   * crosswalk row that lists that 2010 code.
   */
  lemma Soc1019LastRow(rows: seq<CrosswalkRow>, i: nat)
    requires i < |rows| && rows[i].socCode2010.Str?
    requires forall j :: i < j < |rows| ==> rows[j].socCode2010 != rows[i].socCode2010
    ensures Lookup(LoadSocLookup(rows).soc1019, rows[i].socCode2010) == rows[i].oesCode2019
  {
    DictOfLastWins(Zip(rows, SocCode2010, OesCode2019), i);
  }

  /**
   * The 2018 -> 2019 map sends a 2018 code to the 2019 code on the last
   * crosswalk row that lists that 2018 code.
   */
  lemma Oes1819LastRow(rows: seq<CrosswalkRow>, i: nat)
    requires i < |rows| && rows[i].oesCode2018.Str?
    requires forall j :: i < j < |rows| ==> rows[j].oesCode2018 != rows[i].oesCode2018
    ensures Lookup(LoadSocLookup(rows).oes1819, rows[i].oesCode2018) == rows[i].oesCode2019
  {
    DictOfLastWins(Zip(rows, OesCode2018, OesCode2019), i);
  }

  /** The code -> title map sends a 2019 code to the title on its last crosswalk row. */
  lemma Oes19LastRow(rows: seq<CrosswalkRow>, i: nat)
    requires i < |rows| && rows[i].oesCode2019.Str?
    requires forall j :: i < j < |rows| ==> rows[j].oesCode2019 != rows[i].oesCode2019
    ensures Lookup(LoadSocLookup(rows).oes19, rows[i].oesCode2019) == rows[i].oesTitle2019
  {
    DictOfLastWins(Zip(rows, OesCode2019, OesTitle2019), i);
  }
}
