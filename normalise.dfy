/**
 * Column-label normalisation (`much_consistency`): every label is lower-cased,
 * then three labels that changed spelling between report years are renamed to
 * their later spelling. Only the labels change; the cells stay where they are.
 */
module Normalise {

  predicate IsUpper(c: char) { 'A' <= c <= 'Z' }

  function LowerChar(c: char): (d: char)
    ensures !IsUpper(d)
    ensures IsUpper(c) ==> d as int == c as int + 32
    ensures !IsUpper(c) ==> d == c
  {
    if IsUpper(c) then (c as int + 32) as char else c
  }

  predicate IsLowerCase(s: string) {
    forall i :: 0 <= i < |s| ==> !IsUpper(s[i])
  }

  /** Lower-casing of a label, one character at a time. */
  function Lower(s: string): (r: string)
    ensures |r| == |s|
    ensures IsLowerCase(r)
    ensures forall i :: 0 <= i < |s| ==> r[i] == LowerChar(s[i])
  {
    if s == [] then [] else [LowerChar(s[0])] + Lower(s[1..])
  }

  /** A label that is already lower-case is its own lower-casing. */
  lemma LowerOfLowerCase(s: string)
    requires IsLowerCase(s)
    ensures Lower(s) == s
  {
    assert forall i :: 0 <= i < |s| ==> Lower(s)[i] == s[i];
  }

  /** The rename table applied after lower-casing. */
  const Synonyms: map<string, string> :=
    map["occ_group" := "o_group", "loc quotient" := "loc_quotient", "area_name" := "area_title"]

  function Canonical(name: string): string {
    if name in Synonyms then Synonyms[name] else name
  }

  function NormalisedLabel(name: string): (r: string)
    ensures IsLowerCase(r) && r !in Synonyms
    ensures Lower(name) !in Synonyms ==> r == Lower(name)
    ensures Lower(name) in Synonyms ==> r == Synonyms[Lower(name)]
  {
    Canonical(Lower(name))
  }

  /** The labels after normalisation: same number and order, all lower-case, no synonym left. */
  function NormalisedColumns(columns: seq<string>): (r: seq<string>)
    ensures |r| == |columns|
    ensures forall i :: 0 <= i < |r| ==> IsLowerCase(r[i]) && r[i] !in Synonyms
    ensures forall i :: 0 <= i < |r| ==> r[i] == NormalisedLabel(columns[i])
  {
    if columns == [] then []
    else [NormalisedLabel(columns[0])] + NormalisedColumns(columns[1..])
  }

  /** Normalising a name twice gives the same name as normalising it once. */
  lemma NormalisedLabelIdempotent(name: string)
    ensures NormalisedLabel(NormalisedLabel(name)) == NormalisedLabel(name)
  {
    LowerOfLowerCase(NormalisedLabel(name));
  }

  /** Normalising already-normalised labels changes nothing. */
  lemma {:induction false} NormaliseIdempotent(columns: seq<string>)
    ensures NormalisedColumns(NormalisedColumns(columns)) == NormalisedColumns(columns)
  {
    var once := NormalisedColumns(columns);
    forall i | 0 <= i < |once|
      ensures NormalisedColumns(once)[i] == once[i]
    {
      NormalisedLabelIdempotent(columns[i]);
    }
  }
}
