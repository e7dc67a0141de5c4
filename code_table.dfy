/**
  A code table is the sequence of display labels of an enumeration, indexed by
  the enumeration's integer code. Both `datatype_t` and `unit_t` of wtss.cxx
  are such tables followed by an `unknown` sentinel whose code is the length
  of the table. This module gives the reference reading of a table: the label
  of a code is the table entry at that index, and the code of a label is the
  index of its first occurrence.
 */
module CodeTable {

  /** No label occurs twice in the table. */
  ghost predicate Distinct(labels: seq<string>) {
    forall i, j :: 0 <= i < j < |labels| ==> labels[i] != labels[j]
  }

  /** Index of the first entry of `labels` equal to `s`, or `|labels|` when there is none. */
  function IndexOf(labels: seq<string>, s: string): (r: nat)
    ensures r <= |labels|
    ensures r < |labels| ==> labels[r] == s
    ensures forall i :: 0 <= i < r ==> labels[i] != s
    ensures r == |labels| <==> s !in labels
  {
    if labels == [] then 0
    else if labels[0] == s then 0
    else 1 + IndexOf(labels[1..], s)
  }

  /** In a table without repeated labels, searching for the label at index `i` finds `i`. */
  lemma IndexOfDistinct(labels: seq<string>, i: int)
    requires Distinct(labels)
    requires 0 <= i < |labels|
    ensures IndexOf(labels, labels[i]) == i
  {
  }
}
