# History preparation in Stock.Indicators, modelled in Dafny

Every indicator in the Stock.Indicators library first runs its input through
the cleaners. `Cleaners.PrepareHistory` takes a series of quotes (date, open,
high, low, close, volume and a nullable index). `Cleaners.PrepareBasicData`
does the same for single-value records (date, value, index). Each one:

- refuses an empty series;
- refuses a series in which two records share a date;
- otherwise puts the records in date order and numbers them 1..N.

It writes the numbers into the index field of the records the caller passed
in, so the caller sees them without looking at the result.
`Cleaners.ConvertHistoryToBasic` builds a single-value series from one field
of each quote ("O", "H", "L", "C" or "V"). Each built record keeps the date
and index of its quote.

The implementation of `Cleaners` is not part of this model. The behaviour
modelled is the one the unit tests in `IndicatorsTests/Common/Test.Cleaner.cs`
pin down, together with a few choices the tests leave open; "## Left out"
names each of those.

Layout:

- `models.dfy` (module `Models`): the records. `Entry<T>` is a class with an
  immutable `date` and payload and a mutable `index: Option<int>`. A quote is
  `Entry<Ohlcv>` and a single-value record is `Entry<real>`. The module also
  declares the Chaikin Oscillator result record.
- `series.dfy` (module `Series`): pure predicates over a series' dates
  (duplicate, non-decreasing, strictly ascending) and `CountEarlier`, the rank
  of a date: how many records are dated before it. It also holds the lemmas
  about them: the rank does not depend on order, in sorted order rank equals
  position, the sorted order is unique, and duplicates survive reordering.
- `cleaners.dfy` (module `Cleaners`): one generic `Prepare` used by both
  validators. It copies the record references into an array, insertion-sorts
  them by date, scans neighbours for a repeated date, and writes the indexes
  in a loop. Also the element codes and the projection.
- `cleaner_tests.dfy` (module `CleanerTests`): the unit tests as client
  methods. Their postconditions are the tests' assertions. The 502-quote
  fixture is a parameter: any duplicate-free history, with `last` the
  position of its latest quote (12/31/2018 in the fixture).

What is proved, in short. On success the result holds exactly the input
records, in strictly ascending date order, with index k+1 at position k.
Every record the caller holds carries one plus the number of records dated
before it. So the latest record gets N, and no two records share an index.
The result is `Ok` exactly when the input is non-empty and duplicate-free.
An empty input gives the series kind's no-history error. A repeated date
anywhere gives `DuplicateDate`, and then no index is touched. Old indexes,
including cleared ones, play no part. Two preparations of the same records
give the same sequence.

Dates are integers; the tests' dates are written as yyyymmdd numbers.
Decimal values are reals, because they are only ever copied.

A copy-based preparation would leave the caller's records alone. The tests
(`Test.Cleaner.cs:16` and `:27-28`) read the new index back from the caller's
`history`, so the model writes it in place.

## Model

| member | source | states |
|---|---|---|
| `Models.Entry.constructor` | IndicatorsTests/Common/Test.Cleaner.cs:92-96 | a new record has exactly the date, payload and index it was built with |
| `Cleaners.Prepare` | IndicatorsTests/Common/Test.Cleaner.cs:16-28 | Ok iff the input is non-empty and free of repeated dates; empty gives NoHistory, a repeated date gives DuplicateDate, and an error leaves every index as it was; on Ok the result holds the same records as the input in strictly ascending date order with index k+1 at position k, and every caller-held record's index is one plus the number of records dated before it, whatever index it had before |
| `Cleaners.PrepareHistory` | IndicatorsTests/Common/Test.Cleaner.cs:16-28 | the contract of Prepare for quotes, with the empty-input error "no historical quotes" |
| `Cleaners.PrepareBasicData` | IndicatorsTests/Common/Test.Cleaner.cs:42-54 | the contract of Prepare for single-value records, with the empty-input error "no historical basic data"; indexes cleared to null, as at :43, are recomputed (that indexes already present are recomputed too is a model choice, see Left out) |
| `Cleaners.Swap` | IndicatorsTests/Common/Test.Cleaner.cs:26-28 | exactly the two neighbouring records change places, and the array holds the same records |
| `Cleaners.InsertAt` | IndicatorsTests/Common/Test.Cleaner.cs:26-28 | after moving record i down, the first i+1 records are in date order, the records are the same and the rest of the array is untouched |
| `Cleaners.SortByDate` | IndicatorsTests/Common/Test.Cleaner.cs:26-28 | in place, the array ends in non-decreasing date order and holds the same records as often as before |
| `Cleaners.FindDuplicateDate` | IndicatorsTests/Common/Test.Cleaner.cs:86-100 | on a date-sorted series the neighbour scan reports a duplicate exactly when some two records share a date, and otherwise the series is strictly ascending |
| `Cleaners.AssignIndexes` | IndicatorsTests/Common/Test.Cleaner.cs:23-28 | every record of a strictly ascending series gets index position+1 |
| `Cleaners.IndexedByRankOfPrepared` | IndicatorsTests/Common/Test.Cleaner.cs:26-28 | numbering a preparation by position gives each of the caller's records one plus the number of records dated before it |
| `Cleaners.ConvertHistoryToBasic` | IndicatorsTests/Common/Test.Cleaner.cs:36-40 | one fresh, distinct record per quote, in the same order, with the quote's date and index and the chosen field's value; the quotes are unchanged |
| `Cleaners.ElementCode` | IndicatorsTests/Common/Test.Cleaner.cs:36-40 | each field is named by one of the five one-letter codes |
| `Cleaners.ParseElement` | IndicatorsTests/Common/Test.Cleaner.cs:36-40 | a code names a field exactly when it is one of "O", "H", "L", "C", "V", and the field it names has that code |
| `Cleaners.ElementCodeRoundTrip` | IndicatorsTests/Common/Test.Cleaner.cs:36-40 | reading the code of a field gives back that field |
| `Series.CountEarlier` | IndicatorsTests/Common/Test.Cleaner.cs:26-28 | the rank of a date is at most the length of the series |
| `Series.CountEarlierPermutation` | IndicatorsTests/Common/Test.Cleaner.cs:26-28 | the rank of a date is the same in any reordering of the records |
| `Series.CountEarlierAscending` | IndicatorsTests/Common/Test.Cleaner.cs:26-28 | in a strictly ascending series the rank of the date at position k is k |
| `Series.RankIsPosition` | IndicatorsTests/Common/Test.Cleaner.cs:26-28 | in any preparation of a series, the record at position k has the date of rank k in the original series |
| `Series.PreparedUnique` | IndicatorsTests/Common/Test.Cleaner.cs:42-54 | two preparations of the same records are the same sequence, so re-preparing reproduces order and indexes |
| `Series.DuplicatePreserved` | IndicatorsTests/Common/Test.Cleaner.cs:86-100 | reordering a series, which sorting does, neither creates nor removes a repeated date |
| `Series.PreparedHasNoDuplicate` | IndicatorsTests/Common/Test.Cleaner.cs:86-100 | a series that has a strictly ascending reordering has no repeated date |
| `Series.CountEarlierLatest` | IndicatorsTests/Common/Test.Cleaner.cs:26-28 | in a duplicate-free series the latest record's date has rank N-1, so its index is N |
| `Series.RankInjective` | IndicatorsTests/Common/Test.Cleaner.cs:57-61 | in a duplicate-free series different records have different ranks, so no two records share an index |
| `Series.CountEarlierSameDates` | IndicatorsTests/Common/Test.Cleaner.cs:36-46 | a projection and its source series give every date the same rank |
| `Series.DuplicateSameDates` | IndicatorsTests/Common/Test.Cleaner.cs:36-46 | a projection has a repeated date exactly when its source series does |
| `CleanerTests.ClearIndexes` | IndicatorsTests/Common/Test.Cleaner.cs:43 | afterwards every record's index is null |
| `CleanerTests.PrepareHistoryTest` | IndicatorsTests/Common/Test.Cleaner.cs:14-29 | preparing a duplicate-free history gives N records, each with a positive index, and the caller's latest quote has index N |
| `CleanerTests.IndexNIsLatest` | IndicatorsTests/Common/Test.Cleaner.cs:57-61 | in a prepared duplicate-free history only the latest quote has index N |
| `CleanerTests.RecleanClose` | IndicatorsTests/Common/Test.Cleaner.cs:39-54 | projecting the closes (code "C"), clearing their indexes and re-cleaning gives N positively indexed records in strictly ascending date order, the last being the latest close with index N |
| `CleanerTests.CleanBasicDataTest` | IndicatorsTests/Common/Test.Cleaner.cs:33-72 | the five projections, chosen by the codes "O", "H", "L", "C", "V", each have N records; in the O, H, L and V projections the record built from the latest quote has index N, and any record with index N holds that field of the latest quote; the re-cleaned close series is in strictly ascending date order and ends with the latest close at index N |
| `CleanerTests.NoHistoryTest` | IndicatorsTests/Common/Test.Cleaner.cs:78-84 | an empty quote list is refused with the no-quotes error |
| `CleanerTests.DuplicateHistoryTest` | IndicatorsTests/Common/Test.Cleaner.cs:86-100 | the five quotes with 2017-01-06 twice are refused with DuplicateDate |
| `CleanerTests.NoBasicDataTest` | IndicatorsTests/Common/Test.Cleaner.cs:103-109 | an empty single-value list is refused with the no-basic-data error |
| `CleanerTests.DuplicateBasicDataTest` | IndicatorsTests/Common/Test.Cleaner.cs:111-125 | the five values with 2017-01-06 twice are refused with DuplicateDate |

## Left out

- The Chaikin Oscillator computation (money-flow multiplier, accumulation/distribution line, moving averages): its code is not part of this model. Only its result record (Indicators/ChaikinOscillator/ChaikinOsc.Models.cs) is declared, as `Models.ChaikinOscResult`.
- The test framework, `TestBase` and the loading of the 502-quote fixture: this is file I/O. The fixture is a parameter of the scenario methods. Its concrete values (244.92, 245.54, 242.87, 245.28, 147031456) appear only as "the field of the latest quote".
- `DateTime` parsing and calendar semantics: dates are totally ordered integers.
- Exception types and message texts: they are error variants. `NoHistory` carries which validator was called, since the two report an empty input differently.
- A null input list: a Dafny sequence cannot be null.
- What `ConvertHistoryToBasic` does with a code other than the five letters: the tests do not say. `ParseElement` returns `None` for it, and the projection takes a parsed field.
- The order of the projection's output: the tests do not pin it. The model keeps the quotes' order.
- Index writes on a refused input: the model refuses before writing any index. An implementation that numbers records while it scans for duplicates could leave some indexes written on that error path.
- CleanerTests.CleanBasicDataTest: requires a history that is already prepared (every quote indexed by rank). The test at Test.Cleaner.cs:36-40 projects the fixture without preparing it, and the model's projection copies indexes without preparing anything, so the test's lookups by index 502 hold only if the fixture arrives indexed. Whether the library's projection or its fixture loader prepares the history is not visible, so the model takes the prepared state as a precondition.
- Cleaners.PrepareBasicData: recomputes every index, also indexes that are already present and correct or stale. The tests only exercise indexes cleared to null (Test.Cleaner.cs:43). An implementation that returns early when all indexes are present (and then skips the duplicate check) is not modelled.
- `decimal` arithmetic: the model uses reals, because the validator and the projection only copy values.
