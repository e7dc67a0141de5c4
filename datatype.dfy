/**
  The data types of the attributes of a geo-array (`wtss::cxx::datatype_t`):
  an integer code, its display label, and the two conversions between them.
  Codes 0 to 9 name the ten storage types; 10 is the `unknown` sentinel. The
  conversions are total: an out-of-range code is labelled "unknown" and an
  unrecognised label decodes to the sentinel.
 */
module DataType {
  import CodeTable

  const Int8: int := 0
  const UInt8: int := 1
  const Int16: int := 2
  const UInt16: int := 3
  const Int32: int := 4
  const UInt32: int := 5
  const Int64: int := 6
  const UInt64: int := 7
  const Float: int := 8
  const Double: int := 9
  const Unknown: int := 10

  /** The label of every known code, at the index of that code. */
  const Labels: seq<string> := [
    "8-bit signed integer",
    "8-bit unsigned integer",
    "16-bit signed integer",
    "16-bit unsigned integer",
    "32-bit signed integer",
    "32-bit unsigned integer",
    "64-bit signed integer",
    "64-bit unsigned integer",
    "32-bit float",
    "64-bit float"
  ]

  /** Label printed for the sentinel and for every code outside the table. */
  const UnknownLabel: string := "unknown"

  predicate IsKnown(dt: int) {
    Int8 <= dt <= Double
  }

  /** `datatype_t::to_string`: the switch over the ten codes, with a default branch. */
  function ToString(dt: int): (r: string)
    ensures IsKnown(dt) ==> r == Labels[dt]
    ensures !IsKnown(dt) ==> r == UnknownLabel
  {
    if dt == Int8 then "8-bit signed integer"
    else if dt == UInt8 then "8-bit unsigned integer"
    else if dt == Int16 then "16-bit signed integer"
    else if dt == UInt16 then "16-bit unsigned integer"
    else if dt == Int32 then "32-bit signed integer"
    else if dt == UInt32 then "32-bit unsigned integer"
    else if dt == Int64 then "64-bit signed integer"
    else if dt == UInt64 then "64-bit unsigned integer"
    else if dt == Float then "32-bit float"
    else if dt == Double then "64-bit float"
    else "unknown"
  }

  /** `datatype_t::from_string`: exact, case-sensitive comparisons in table order. */
  function FromString(name: string): (r: int)
    ensures Int8 <= r <= Unknown
    ensures r < Unknown ==> name == Labels[r]
    ensures r == Unknown <==> name !in Labels
  {
    if name == "8-bit signed integer" then Int8
    else if name == "8-bit unsigned integer" then UInt8
    else if name == "16-bit signed integer" then Int16
    else if name == "16-bit unsigned integer" then UInt16
    else if name == "32-bit signed integer" then Int32
    else if name == "32-bit unsigned integer" then UInt32
    else if name == "64-bit signed integer" then Int64
    else if name == "64-bit unsigned integer" then UInt64
    else if name == "32-bit float" then Float
    else if name == "64-bit float" then Double
    else Unknown
  }

  /** The ten labels are pairwise different. */
  lemma LabelsDistinct()
    ensures CodeTable.Distinct(Labels)
  {
  }

  /** The sentinel's label is not the label of any known code. */
  lemma UnknownLabelNotInTable()
    ensures UnknownLabel !in Labels
    ensures |Labels| == Unknown
  {
  }

  /** Decoding is the reference table lookup: the index of the label, or the sentinel. */
  lemma FromStringIsLookup(name: string)
    ensures FromString(name) == CodeTable.IndexOf(Labels, name)
  {
    UnknownLabelNotInTable();
    var r := FromString(name);
    if r < Unknown {
      LabelsDistinct();
      CodeTable.IndexOfDistinct(Labels, r);
    }
  }

  /** Decoding the label of a known code gives that code back. */
  lemma RoundTrip(dt: int)
    requires IsKnown(dt)
    ensures FromString(ToString(dt)) == dt
  {
  }

  /** The sentinel and every code outside 0..9 are labelled "unknown". */
  lemma DefaultLabel(dt: int)
    ensures ToString(dt) == UnknownLabel <==> !IsKnown(dt)
  {
  }

  /** Every string other than the ten labels decodes to the sentinel, "" and "unknown" included. */
  lemma Fallback(name: string)
    requires name !in Labels
    ensures FromString(name) == Unknown
    ensures FromString("") == Unknown
    ensures FromString(UnknownLabel) == Unknown
  {
  }

  /** Different known codes have different labels. */
  lemma ToStringInjective(a: int, b: int)
    requires IsKnown(a) && IsKnown(b)
    requires ToString(a) == ToString(b)
    ensures a == b
  {
  }

  /** Re-encoding a decoded label gives the label back. */
  lemma LabelRoundTrip(name: string)
    requires name in Labels
    ensures FromString(name) < Unknown
    ensures ToString(FromString(name)) == name
  {
  }

  /** For every integer, decoding its label gives the code itself when known, else the sentinel. */
  lemma RoundTripAnyInt(dt: int)
    ensures FromString(ToString(dt)) == if IsKnown(dt) then dt else Unknown
  {
  }

  /** The worked examples: `int32_dt`, `float_dt`, `double_dt` and an unrecognised label. */
  lemma Examples()
    ensures ToString(Int32) == "32-bit signed integer"
    ensures FromString("32-bit signed integer") == Int32
    ensures ToString(Float) == "32-bit float"
    ensures FromString("64-bit float") == Double
    ensures ToString(Unknown) == "unknown" && ToString(-1) == "unknown"
    ensures FromString("32-Bit Float") == Unknown
  {
  }
}
