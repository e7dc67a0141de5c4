# wtss.cxx data types: code/label conversions

wtss.cxx is a C++ client for a Web Time Series Service (WTSS). Its header
`src/wtss-cxx/data_types.hpp` describes a SciDB geo-array: extents,
attributes, dimensions, timelines and time-series query results. Two of its
structs have behaviour:

- `datatype_t` names the storage type of an array attribute. It uses an
  integer code: `int8_dt` = 0 up to `double_dt` = 9, and `unknown` = 10.
- `unit_t` names the unit of a temporal resolution: `day` = 0, `month` = 1,
  `year` = 2, and `unknown` = 3.

Each struct has a `to_string` that switches on the code. Its `default` branch
returns `"unknown"`. Each also has a `from_string` that compares its argument
to each label in turn and returns the `unknown` code when none matches. This
project models the four conversions as Dafny functions over `int` and
`string`, using the labels exactly as the header spells them.

Modules:

- `CodeTable` (`code_table.dfy`): the reference reading of a label table. A
  code's label is the table entry at that index. A label's code is the index
  of its first occurrence (`IndexOf`), or the table's length when it does not
  occur.
- `DataType` (`datatype.dfy`): `datatype_t`. It holds the code constants, the
  ten labels as `Labels`, `ToString`, `FromString` and their laws.
- `Unit` (`unit.dfy`): `unit_t`, in the same shape.

In both enumerations the `unknown` code is the length of the label table. So
`FromString` is exactly `IndexOf` on the table (`FromStringIsLookup`). That
lemma is the link between the header's if-chain and the reference table.

## Model

| member | source | states |
|---|---|---|
| CodeTable.IndexOf | src/wtss-cxx/data_types.hpp:122-146 | the first-match search that `from_string` performs: the result is at most the table length; if it is smaller, the entry there equals the label; no earlier entry does; and the result is the table length exactly when the label is absent |
| DataType.ToString | src/wtss-cxx/data_types.hpp:92-119 | for a code in 0..9, the result is that code's entry in the label table; for any other int, including `unknown`, the result is `"unknown"` |
| DataType.FromString | src/wtss-cxx/data_types.hpp:122-146 | the result is always in 0..10; a result below 10 is the index of the input in the label table; the result is 10 (`unknown`) exactly when the input is none of the ten labels |
| DataType.LabelsDistinct | src/wtss-cxx/data_types.hpp:96-115 | the ten data type labels are pairwise different |
| DataType.UnknownLabelNotInTable | src/wtss-cxx/data_types.hpp:116-117 | the default label `"unknown"` is not one of the ten labels, and the `unknown` code equals the number of labels |
| DataType.FromStringIsLookup | src/wtss-cxx/data_types.hpp:122-146 | for every string, `from_string` equals the reference table lookup `IndexOf(Labels, s)` |
| DataType.RoundTrip | src/wtss-cxx/data_types.hpp:92-146 | for every code from `int8_dt` to `double_dt`, decoding the code's label gives the code back |
| DataType.DefaultLabel | src/wtss-cxx/data_types.hpp:116-117 | `to_string` returns `"unknown"` if and only if the code is outside 0..9 |
| DataType.Fallback | src/wtss-cxx/data_types.hpp:124-145 | every string that is not one of the ten labels decodes to `unknown`; so do `""` and `"unknown"` |
| DataType.ToStringInjective | src/wtss-cxx/data_types.hpp:96-115 | two known codes with the same label are the same code |
| DataType.LabelRoundTrip | src/wtss-cxx/data_types.hpp:124-143 | each of the ten labels decodes to a known code whose label is that same string |
| DataType.RoundTripAnyInt | src/wtss-cxx/data_types.hpp:92-146 | for every int c, decoding `to_string(c)` gives c if c is in 0..9 and `unknown` otherwise |
| DataType.Examples | src/wtss-cxx/data_types.hpp:104-145 | `int32_dt` and `"32-bit signed integer"` map to each other; `float_dt` is labelled `"32-bit float"`; `"64-bit float"` decodes to `double_dt`; `unknown` and -1 are labelled `"unknown"`; a label with different letter case decodes to `unknown` |
| Unit.ToString | src/wtss-cxx/data_types.hpp:161-174 | for a unit in 0..2, the result is its entry in the label table; for any other int, the result is `"unknown"` |
| Unit.FromString | src/wtss-cxx/data_types.hpp:177-187 | the result is always in 0..3; a result below 3 is the index of the input in the label table; the result is 3 (`unknown`) exactly when the input is not `"day"`, `"month"` or `"year"` |
| Unit.LabelsDistinct | src/wtss-cxx/data_types.hpp:165-170 | the three unit labels are pairwise different |
| Unit.UnknownLabelNotInTable | src/wtss-cxx/data_types.hpp:171-172 | the default label `"unknown"` is not a unit label, and the `unknown` code equals the number of labels |
| Unit.FromStringIsLookup | src/wtss-cxx/data_types.hpp:177-187 | for every string, `from_string` equals the reference table lookup `IndexOf(Labels, s)` |
| Unit.RoundTrip | src/wtss-cxx/data_types.hpp:161-187 | for `day`, `month` and `year`, decoding the unit's label gives the unit back |
| Unit.DefaultLabel | src/wtss-cxx/data_types.hpp:171-172 | `to_string` returns `"unknown"` if and only if the code is outside 0..2 |
| Unit.Fallback | src/wtss-cxx/data_types.hpp:179-186 | every string other than the three labels decodes to `unknown`; so do `""` and `"unknown"` |
| Unit.ToStringInjective | src/wtss-cxx/data_types.hpp:165-170 | two known units with the same label are the same unit |
| Unit.LabelRoundTrip | src/wtss-cxx/data_types.hpp:179-184 | each of the three labels decodes to a known unit whose label is that same string |
| Unit.RoundTripAnyInt | src/wtss-cxx/data_types.hpp:161-187 | for every int u, decoding `to_string(u)` gives u if u is in 0..2 and `unknown` otherwise |
| Unit.Examples | src/wtss-cxx/data_types.hpp:165-186 | `day` is labelled `"day"`; `"month"` decodes to `month`; `"century"` and `"Day"` decode to `unknown` |

## Left out

- The record structs (`spatial_resolution_t`, `numeric_range_t`, `time_interval_t`, `extent_t`, `date`, `dimension_t`, the extent structs, `attribute_t`, `crs_t`, `geoarray_t`, `queried_attribute_t`, `coordinates_t`, `queried_coverage_t`, `timeseries_query_t`, `timeseries_query_result_t`; lines 44-71 and 190-292): they only hold fields and have no operations, so they have no contracts.
- The `double` fields of those records: they are floating-point data, and no logic in the header uses them.
- The rule that each queried attribute has one value per timeline entry: nothing in the header enforces or checks it.
- Integer width: the C++ parameters are 32-bit `int`, but the model accepts any mathematical integer. This is a superset of 32-bit values, and every law holds for all of them.
- Character encoding: `std::string` holds bytes, while the model uses Dafny `string`. All labels are ASCII, so comparing them as characters is the same as comparing their bytes.
- `config.hpp`, JSON deserialisation, HTTP transport and query execution are not part of this model.
