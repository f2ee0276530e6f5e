/**
 * Peer-group classification (`map_peer_type`): the `peer_type` column is the
 * area looked up in the area -> peer-group map, and every row the map does
 * not classify is labelled "All Other MSA".
 */
module Peers {
  import opened Tables
  import opened Lookups

  const Area := "area"
  const PeerType := "peer_type"
  const CatchAll := "All Other MSA"

  /** Line 151 looks the area up; line 152 fills what is still null with the catch-all label. */
  function PeerOf(area: Cell, msa: Dict): (c: Cell)
    ensures c != Null
    ensures area.Str? && area.text in msa && msa[area.text] != Null ==> c == msa[area.text]
    ensures area.Null? || area.text !in msa || msa[area.text] == Null ==> c == Str(CatchAll)
  {
    var v := Lookup(msa, area);
    if v.Null? then Str(CatchAll) else v
  }

  function PeerTypedRows(columns: seq<string>, rows: seq<Row>, msa: Dict): (r: seq<Row>)
    requires forall x :: x in rows ==> |x| == |columns|
    ensures |r| == |rows|
    ensures forall i :: 0 <= i < |rows| ==> r[i] == Put(columns, rows[i], PeerType, PeerOf(Get(columns, rows[i], Area), msa))
  {
    if rows == [] then []
    else [Put(columns, rows[0], PeerType, PeerOf(Get(columns, rows[0], Area), msa))]
         + PeerTypedRows(columns, rows[1..], msa)
  }

  /** `map_peer_type`; without an `area` column it raises a KeyError. */
  function MapPeerType(t: Table, msa: Dict): (r: Table)
    requires WellFormed(t) && Area in t.columns
    ensures WellFormed(r)
    ensures r.columns == AddColumn(t.columns, PeerType) && |r.rows| == |t.rows|
  {
    Table(AddColumn(t.columns, PeerType), PeerTypedRows(t.columns, t.rows, msa))
  }

  /**
   * After classification no row has a null `peer_type`: it is the area's
   * looked-up peer group when that is present, else "All Other MSA". Every
   * other cell is unchanged.
   */
  lemma PeerTypeAssigned(t: Table, msa: Dict, i: nat)
    requires WellFormed(t) && Area in t.columns && i < |t.rows|
    ensures var r := MapPeerType(t, msa);
            var peer := Get(r.columns, r.rows[i], PeerType);
            var area := Get(t.columns, t.rows[i], Area);
      && peer != Null
      && (Lookup(msa, area) != Null ==> peer == Lookup(msa, area))
      && (Lookup(msa, area) == Null ==> peer == Str(CatchAll))
      && (forall k :: 0 <= k < |t.columns| && t.columns[k] != PeerType ==> r.rows[i][k] == t.rows[i][k])
  {
    var row := t.rows[i];
    assert row in t.rows;
    var v := PeerOf(Get(t.columns, row, Area), msa);
    assert MapPeerType(t, msa).rows[i] == Put(t.columns, row, PeerType, v);
    GetPut(t.columns, row, PeerType, v);
    PutKeepsOthers(t.columns, row, PeerType, v);
  }
}
