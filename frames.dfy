/**
 * The data frame that each stage of the pipeline updates in place. Its
 * methods are the in-place parts of the helper functions; each is specified
 * by the value-level function of its stage.
 */
module Frames {
  import opened Tables
  import opened Lookups
  import Normalise
  import Crosswalk
  import Peers
  import Nulls

  class Frame {
    var columns: seq<string>
    var rows: seq<Row>

    ghost predicate Valid()
      reads this
    {
      WellFormed(Table(columns, rows))
    }

    function Value(): Table
      reads this
    {
      Table(columns, rows)
    }

    constructor (t: Table)
      requires WellFormed(t)
      ensures Valid() && Value() == t
    {
      columns := t.columns;
      rows := t.rows;
    }

    /**
     * `much_consistency`: the labels are lower-cased (line 84), then the
     * synonym labels are renamed (lines 88-90). The rows are untouched.
     */
    method NormaliseColumns()
      requires Valid()
      modifies this
      ensures Valid()
      ensures columns == Normalise.NormalisedColumns(old(columns)) && rows == old(rows)
    {
      var raw := columns;
      var lowered := seq(|raw|, i requires 0 <= i < |raw| => Normalise.Lower(raw[i]));
      columns := lowered;
      columns := seq(|lowered|, i requires 0 <= i < |lowered| => Normalise.Canonical(lowered[i]));
      assert forall i :: 0 <= i < |raw| ==> columns[i] == Normalise.NormalisedColumns(raw)[i];
    }

    /**
     * `map_soc`: the `oes_code_2019` column is written into this frame
     * (line 117); the crosswalked rows come back as a new frame.
     */
    method MapSoc(year: int, lk: SocLookup) returns (f: Frame)
      requires Valid() && HasColumns(columns, Crosswalk.SocColumns)
      modifies this
      ensures Valid()
      ensures columns == AddColumn(old(columns), Crosswalk.CodeColumn)
      ensures rows == Crosswalk.PrimaryCoded(old(columns), old(rows), Crosswalk.SelectMapping(year, lk))
      ensures fresh(f) && f.Valid() && f.Value() == Crosswalk.MapSoc(old(Value()), year, lk)
    {
      rows := Crosswalk.PrimaryCoded(columns, rows, Crosswalk.SelectMapping(year, lk));
      columns := AddColumn(columns, Crosswalk.CodeColumn);
      f := new Frame(Table(AddColumn(columns, Crosswalk.TitleColumn), Crosswalk.Recombine(columns, rows, lk)));
    }

    /** `map_peer_type`: the `peer_type` column is assigned (line 151) and its nulls filled (line 152). */
    method MapPeerType(msa: Dict)
      requires Valid() && Peers.Area in columns
      modifies this
      ensures Valid() && Value() == Peers.MapPeerType(old(Value()), msa)
    {
      rows := Peers.PeerTypedRows(columns, rows, msa);
      columns := AddColumn(columns, Peers.PeerType);
    }

    /** `map_nulls`: the marker cells are replaced in place (line 166). */
    method MapNulls()
      requires Valid()
      modifies this
      ensures Valid() && Value() == Nulls.MapNulls(old(Value()))
    {
      rows := Nulls.HarmonisedRows(rows);
    }
  }
}
