/**
  The temporal units of a coverage's time resolution (`wtss::cxx::unit_t`):
  codes 0, 1 and 2 for day, month and year, 3 for the `unknown` sentinel,
  with total conversions to and from their labels.
 */
module Unit {
  import CodeTable

  const Day: int := 0
  const Month: int := 1
  const Year: int := 2
  const Unknown: int := 3

  /** The label of every known unit, at the index of its code. */
  const Labels: seq<string> := ["day", "month", "year"]

  /** Label printed for the sentinel and for every code outside the table. */
  const UnknownLabel: string := "unknown"

  predicate IsKnown(u: int) {
    Day <= u <= Year
  }

  /** `unit_t::to_string`: the switch over the three codes, with a default branch. */
  function ToString(u: int): (r: string)
    ensures IsKnown(u) ==> r == Labels[u]
    ensures !IsKnown(u) ==> r == UnknownLabel
  {
    if u == Day then "day"
    else if u == Month then "month"
    else if u == Year then "year"
    else "unknown"
  }

  /** `unit_t::from_string`: exact, case-sensitive comparisons in table order. */
  function FromString(name: string): (r: int)
    ensures Day <= r <= Unknown
    ensures r < Unknown ==> name == Labels[r]
    ensures r == Unknown <==> name !in Labels
  {
    if name == "day" then Day
    else if name == "month" then Month
    else if name == "year" then Year
    else Unknown
  }

  /** The three labels are pairwise different. */
  lemma LabelsDistinct()
    ensures CodeTable.Distinct(Labels)
  {
  }

  /** The sentinel's label is not the label of any known unit. */
  lemma UnknownLabelNotInTable()
    ensures UnknownLabel !in Labels
    ensures |Labels| == Unknown
  {
  }

  /** Decoding is the reference table lookup: the index of the label, or the sentinel. */
  lemma FromStringIsLookup(name: string)
    ensures FromString(name) == CodeTable.IndexOf(Labels, name)
  {
  }

  /** Decoding the label of a known unit gives that unit back. */
  lemma RoundTrip(u: int)
    requires IsKnown(u)
    ensures FromString(ToString(u)) == u
  {
  }

  /** The sentinel and every code outside 0..2 are labelled "unknown". */
  lemma DefaultLabel(u: int)
    ensures ToString(u) == UnknownLabel <==> !IsKnown(u)
  {
  }

  /** Every string other than the three labels decodes to the sentinel, "" and "unknown" included. */
  lemma Fallback(name: string)
    requires name !in Labels
    ensures FromString(name) == Unknown
    ensures FromString("") == Unknown
    ensures FromString(UnknownLabel) == Unknown
  {
  }

  /** Different known units have different labels. */
  lemma ToStringInjective(a: int, b: int)
    requires IsKnown(a) && IsKnown(b)
    requires ToString(a) == ToString(b)
    ensures a == b
  {
  }

  /** Re-encoding a decoded label gives the label back. */
  lemma LabelRoundTrip(name: string)
    requires name in Labels
    ensures FromString(name) < Unknown
    ensures ToString(FromString(name)) == name
  {
  }

  /** For every integer, decoding its label gives the code itself when known, else the sentinel. */
  lemma RoundTripAnyInt(u: int)
    ensures FromString(ToString(u)) == if IsKnown(u) then u else Unknown
  {
  }

  /** The worked examples: `day`, `month` and the unrecognised "century". */
  lemma Examples()
    ensures ToString(Day) == "day"
    ensures FromString("month") == Month
    ensures FromString("century") == Unknown
    ensures FromString("Day") == Unknown
  {
  }
}
