# Air-quality ingestion core, in Dafny

A model of the ingestion script `cc_computing.py`. The script reads
sensor.community feed entries, computes an Air Quality Index (AQI) from the
PM10 (`P1`) and PM2.5 (`P2`) readings, and writes one flat item per entry
through a DynamoDB batch writer, 25 items at a time.

The model has five modules:

- `Aqi` (`aqi.dfy`) models `calculate_aqi`:
  - the two lookup tables, as ten closed integer bands each;
  - `calculate_sub_aqi`, a first-match scan over the bands;
  - the worst-case rule that combines the two sub-indices.

  Concentrations are exact decimals, modelled as `real`. The module also
  keeps the function as written, where a single missing reading raises
  (see Findings).
- `DecimalConversion` (`float_to_decimal.dfy`) models `float_to_decimal`
  on a JSON-like value. A float is represented by the decimal its shortest
  text denotes.
- `IntText` (`int_text.dfy`) models Python's `str` on an integer, used
  for the item key.
- `Wrappers` (`wrappers.dfy`) holds the `Option` and `Result` types used
  for Python's `None` and for the exceptions that abort a run.
- `Ingestion` (`ingestion.dfy`) models the loop at lines 94-131. It is
  written as imperative methods over a `BatchWriter` class whose
  `put_item` appends to a log:
  - `ScanReadings`, `BuildEntryItem` and `FillBatches`/`IngestEntries` are
    proved against specification functions: `Extract` specifies the scan of
    the readings, `BuildItem` one entry, and `Process(es, n)` the loop after
    `n` entries;
  - the buffer methods `AddToBuffer`, `PutAll` and `BatchWriter.PutItem`
    state the writer's new log in terms of its old one.

Behaviour of the code that the model keeps on purpose:

- **Swapped arguments.** Line 106 calls `calculate_aqi(pm10, pm25)` against
  the signature `calculate_aqi(pm25, pm10)`. PM10 is therefore classified
  with the PM2.5 table and PM2.5 with the PM10 table (`SwappedTablesExample`,
  `SwapExample`).
- **`aqi` carries over.** `aqi` is assigned only when both readings are
  present and is never reset. An entry lacking a reading inherits the
  previous entry's AQI (`ProcessAqi`). If the very first entry lacks one,
  the item construction reads an unbound name and raises NameError
  (`UnboundAqi`).
- **One bad entry stops the run.** A malformed reading value, or a missing
  `location`/`country`, raises and stops everything.
  - No skip-and-count policy or run report exists: a bad entry aborts the
    run. After an exception only the full groups of 25 written before it
    reach the writer (`IngestEntries`).
  - Line 130 always runs a final `put_item` loop over the rest of the
    buffer, and that rest may be empty.
- **Gaps between bands.** The bands have whole-number bounds and are
  closed intervals. A value such as 11.5 µg/m³ PM2.5 falls between bands
  and gets no sub-index (`Pm25GapAfterEleven`, `SubIndexNone`). Only whole
  numbers are covered without gaps (`SubIndexWholeNumbers`).
- **AQI only with both readings.** The AQI is recomputed only when both
  readings are present (line 105). It is never computed from a single one.

## Model

| member | source | states |
|---|---|---|
| DecimalConversion.DecimalOfFloat | cc_computing.py:15 | `decimal.Decimal(str(f))` stands for the same number as the float, infinities and NaN included |
| DecimalConversion.FloatToDecimal | cc_computing.py:13-20 | the result contains no float, and it says exactly what the input says: same dict keys in the same order, same list lengths, non-float leaves unchanged, each float replaced by the decimal of its text |
| DecimalConversion.FloatFreeViewUnique | cc_computing.py:13-20 | two float-free values that say the same thing are equal, so nothing but the float leaves can change |
| DecimalConversion.FloatToDecimalCharacterised | cc_computing.py:13-20 | the converted value is the one and only float-free value with the input's meaning |
| DecimalConversion.FloatToDecimalIdentity | cc_computing.py:13-20 | a value with no float anywhere comes back unchanged |
| DecimalConversion.FloatToDecimalIdempotent | cc_computing.py:13-20 | converting twice gives the same as converting once |
| DecimalConversion.FloatToDecimalShape | cc_computing.py:16-20 | a dict stays a dict with its keys in order, a list stays a list of the same length, and any other non-float value is returned as is |
| Aqi.InBand | cc_computing.py:30 | the test `range_min <= pm_value <= range_max` on a closed band; a predicate with no contract of its own |
| Aqi.Pm25Table | cc_computing.py:35-46 | the PM2.5 lookup table, its ten bands in the dict's insertion order; its shape is stated by `Pm25TableShape` |
| Aqi.Pm10Table | cc_computing.py:48-59 | the PM10 lookup table, its ten bands in the dict's insertion order; its shape is stated by `Pm10TableShape` |
| Aqi.SubIndex | cc_computing.py:28-32 | `calculate_sub_aqi`: the first band in table order containing the value gives the index, else None; it has no contract of its own, and its meaning is stated by `SubIndexFinds` and `SubIndexIsBand` |
| Aqi.SubIndexFinds | cc_computing.py:28-32 | the scan returns None exactly when no band contains the value; otherwise it returns the index of a band that contains it |
| Aqi.BandsOrdered | cc_computing.py:35-59 | in a table shaped like the two lookup tables, every band ends below the start of each later band |
| Aqi.BandsNonNegative | cc_computing.py:35-59 | no band starts below 0 |
| Aqi.BandsDisjoint | cc_computing.py:35-59 | at most one band contains a given value, so the first-match scan is unambiguous |
| Aqi.SubIndexIsBand | cc_computing.py:28-32 | the sub-index is k+1 exactly when the value lies in band k |
| Aqi.SubIndexRange | cc_computing.py:28-32 | a sub-index, when there is one, lies in 1..10 |
| Aqi.SubIndexMonotone | cc_computing.py:28-59 | a larger concentration never gets a smaller sub-index |
| Aqi.SubIndexTop | cc_computing.py:28-32 | any value at or above the start of the last band gets index 10 |
| Aqi.SubIndexNone | cc_computing.py:28-59 | there is no sub-index exactly when the value is negative or lies strictly between two bands |
| Aqi.SubIndexWholeNumbers | cc_computing.py:35-59 | for tables whose bands follow on whole numbers, every non-negative whole number has a sub-index |
| Aqi.SubIndexOf | cc_computing.py:62-63 | the sub-index of an optional reading, None for a missing one; it has no contract of its own, and its range is stated by `SubIndexOfRange` |
| Aqi.SubIndexOfRange | cc_computing.py:62-63 | the sub-index of an optional reading, when there is one, lies in 1..10 |
| Aqi.TablesWellFormed | cc_computing.py:35-59 | both tables have ten bands indexed 1..10 in order, starting at 0, following on whole numbers, and the last band is unbounded |
| Aqi.Pm25TableShape | cc_computing.py:35-46 | the PM2.5 table has that shape |
| Aqi.Pm10TableShape | cc_computing.py:48-59 | the PM10 table has that shape |
| Aqi.Worst | cc_computing.py:66-73 | the combined index exists exactly when one of the two exists; it is one of them and at least each one that exists |
| Aqi.CalculateAqi | cc_computing.py:23-73 | a returned AQI lies in 1..10 |
| Aqi.CalculateAqiWorstCase | cc_computing.py:23-73 | there is no AQI when both readings are absent, or when neither reading has a sub-index; otherwise the AQI is the maximum of the two sub-indices, or the only one |
| Aqi.CalculateAqiMonotonePm25 | cc_computing.py:23-73 | raising the PM2.5 reading within the table's domain never lowers the AQI |
| Aqi.CalculateAqiMonotonePm10 | cc_computing.py:23-73 | raising the PM10 reading within the table's domain never lowers the AQI |
| Aqi.TopBands | cc_computing.py:35-59 | PM2.5 from 71 up and PM10 from 101 up get index 10, with no upper limit |
| Aqi.SwapExample | cc_computing.py:35-59 | for PM10 in 92..100 and PM2.5 in 0..11, the AQI is 9 with the arguments in order and 10 with them swapped |
| Aqi.Pm25GapAfterEleven | cc_computing.py:35-37 | a PM2.5 value strictly between 11 and 12 has no sub-index |
| Aqi.SubIndexAsWritten | cc_computing.py:28-32 | a present reading gets the scan's result; a None reading raises TypeError on the first comparison |
| Aqi.CalculateAqiAsWritten | cc_computing.py:23-73 | the function as written raises exactly when one reading is None and the other is not |
| Aqi.AsWrittenAgrees | cc_computing.py:23-73 | whenever the code as written returns, it returns the same as `CalculateAqi`, and it always returns when both readings are present |
| Aqi.SingleReadingRaises | cc_computing.py:24-32 | `calculate_aqi(None, 20)` raises TypeError, while the intended result is index 2 |
| IntText.NatDigits | cc_computing.py:111 | the decimal text of a natural number is non-empty digits with no leading zero |
| IntText.IntToString | cc_computing.py:111 | `str(n)` is non-empty and starts with '-' exactly when n is negative |
| IntText.DigitsRoundTrip | cc_computing.py:111 | reading back the digits of n gives n |
| IntText.ParseIntRoundTrip | cc_computing.py:111 | reading back `str(n)` gives n |
| IntText.IntToStringInjective | cc_computing.py:111 | distinct numeric ids get distinct key text |
| Ingestion.IdToString | cc_computing.py:111 | `str(entry['id'])`: a string id is kept, and the text of a numeric id reads back as that number |
| Ingestion.ScanStep | cc_computing.py:100-103 | one reading: a P1 or P2 value overwrites its own loop variable and leaves the other alone, a malformed P1 or P2 value raises (and nothing else does), and any other tag changes nothing |
| Ingestion.Extract | cc_computing.py:97-103 | a failed scan of the readings is always a malformed value |
| Ingestion.ExtractFails | cc_computing.py:99-103 | the scan raises exactly when some P1 or P2 reading has a malformed value |
| Ingestion.ExtractTakesLast | cc_computing.py:99-103 | after the scan, `pm10` holds the last P1 value and `pm25` the last P2 value, and each is None exactly when no reading has that tag; other tags are ignored |
| Ingestion.ExtractFailureStable | cc_computing.py:99-103 | once a prefix of the readings raises, the whole scan raises the same way |
| Ingestion.ScanReadings | cc_computing.py:97-103 | the loop over the readings computes `Extract` |
| Ingestion.NextAqi | cc_computing.py:105-106 | with both readings, `aqi` becomes the worst of PM10 classified by the PM2.5 table and PM2.5 classified by the PM10 table (the swapped call); otherwise it keeps its value |
| Ingestion.BuildItem | cc_computing.py:96-117 | a built item copies the id as text, the timestamp, the country and both readings, and its AQI is the new value of `aqi`; an entry raises for a malformed value (exactly when the scan fails), for a missing country (checked before `aqi` is read, as the dict literal evaluates line 113 before line 116), or, with the country present, for `aqi` never having been assigned while a reading is missing |
| Ingestion.BuildEntryItem | cc_computing.py:96-117 | the body of the entry loop, up to the item, computes `BuildItem` |
| Ingestion.Step | cc_computing.py:95-120 | one iteration: after an exception nothing changes; otherwise the entry adds exactly one item, or aborts the run at that entry keeping the items built so far |
| Ingestion.Process | cc_computing.py:95-120 | after n entries, a completed run holds one item per entry and an aborted run holds one item per entry before the one that raised |
| Ingestion.ProcessShape | cc_computing.py:95-120 | in a completed run, `aqi` is unbound before the first entry and otherwise holds the last item's AQI; an aborted run stopped at an entry already seen |
| Ingestion.ProcessAbortedStable | cc_computing.py:95-120 | once an entry raises, later entries change nothing |
| Ingestion.ProcessAbortsAt | cc_computing.py:95-120 | an entry that raises ends the whole run, keeping the items built before it |
| Ingestion.ProcessItems | cc_computing.py:110-117 | every item of a completed run copies its own entry's id text, timestamp, country and last P1/P2 values, and its AQI is absent or in 1..10 |
| Ingestion.ProcessAqi | cc_computing.py:105-116 | an item's AQI is `calculate_aqi(pm10, pm25)` (arguments swapped) when its entry has both readings; otherwise it is the previous item's AQI, and the first entry always has both |
| Ingestion.ProcessAbortCause | cc_computing.py:101-116 | a run aborts at an entry with a malformed value, or with no country, or, only at the first entry and only when its country is present, with a missing reading while `aqi` is unbound |
| Ingestion.BatchWriter.constructor | cc_computing.py:94 | a new writer has received no items |
| Ingestion.BatchWriter.PutItem | cc_computing.py:125 | `put_item` appends exactly that item to what the writer has received |
| Ingestion.PutAll | cc_computing.py:124-125 | the buffered items are handed over in order and nothing else is |
| Ingestion.AddToBuffer | cc_computing.py:119-127 | the item is appended to the buffer; the buffer is flushed in order and emptied exactly when it reaches 25 items, and otherwise the writer is untouched |
| Ingestion.FillBatches | cc_computing.py:94-128 | the writer receives the items in groups of 25, each group being the buffer at the moment it fills; on completion these N div 25 groups followed by the N mod 25 buffered items are every item in input order; after an exception at entry k exactly the first k div 25 groups have been written, and the exception is reported |
| Ingestion.IngestEntries | cc_computing.py:90-131 | the writer's log grows by the concatenation of the groups of `put_item` calls; on completion these are N div 25 groups of 25 followed by one final group of N mod 25 (possibly empty), together every item once in input order; after an exception at entry k they are exactly the first k div 25 groups of 25, and the exception is reported |
| Ingestion.SwappedTablesExample | cc_computing.py:105-106 | an entry with P1 in 92..100 and P2 in 0..11 is stored with AQI 10, where the in-order call gives 9 |

## Left out

- `fetch_sensor_data` (lines 7-10) is not modelled: it is an HTTP request. The entries it returns are the input of `IngestEntries`.
- The DynamoDB side is not modelled: `boto3`, the table, `batch_writer`'s own buffering and retries, and the de-duplication that `overwrite_by_pkeys` performs. `put_item` is modelled as appending to the writer's log, so the model records calls and not stored rows.
- Lines 134-153 are not part of this model. They are the command-line trigger that sends an SSM command.
- `lambda_scriptFunction.py` and `lambda_updateData.py` are not part of this model.
- `decimal.Decimal` parsing of a reading's text is not modelled. A reading carries the parsed value, or None when the text is rejected, which raises.
  - Text such as `NaN` or `Infinity` is accepted by `Decimal`. It is not modelled: the ordering comparisons in `calculate_sub_aqi` would raise for NaN, and a real cannot be infinite.
- Line 83 applies `float_to_decimal` to each entry's readings before the loop. The model does not chain this into the ingestion: the feed's values are text, which the conversion leaves unchanged. `float_to_decimal` is modelled on its own.
- A float is represented by the decimal value of its shortest text. The binary value, negative zero and the text formatting of `str` are not modelled.
- Line 107 writes the AQI back into the fetched entry with `entry['AQI'] = aqi`. This is not modelled, because nothing later in the script reads it.
- Missing `id`, `timestamp`, `sensordatavalues`, `value_type` or `value` keys are not modelled: the entries are typed records that always carry them. A missing `location` or `country` is modelled.
- The `enumerate` counter `i` on line 95 is not modelled, because it is never used.

## Findings

| source | as written | input that shows it | evidently intended | confidence | as-written member | corrected member |
|---|---|---|---|---|---|---|
| cc_computing.py:24-32 | only the case where both readings are None is guarded. With one None, `calculate_sub_aqi` evaluates `range_min <= None` and raises TypeError | `calculate_aqi(None, 20)` | a missing reading has no sub-index, and the AQI is the other reading's sub-index, as the branches at lines 68-71 expect (index 2 here) | high; not executed | Aqi.CalculateAqiAsWritten | Aqi.CalculateAqi |

The loop at line 105 calls `calculate_aqi` only when both readings are
present, so the pipeline never reaches this case. There the two
definitions agree (`AsWrittenAgrees`).
