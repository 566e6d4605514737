# AQMesh ingestion, modelled in Dafny

This project models the ingestion core of the AQMesh scripts. They copy air-quality measurements from the
airmonitors stationdata API into a BigQuery table.

- `get_history.py` backfills every station from its first measurement up to the start of the run.
- `scraper.py` catches the stations up, in order, from each one's latest stored measurement to the start of
  the run. It stops at the first station for which the table holds no row.

Both scripts share three pieces:

- **The fingerprint** (`stringifyID`). It builds an identity string for each measurement record from the
  station uid, the begin and end epoch seconds, and the `Scaled` values of its channels.
- **`rowify`.** It drops records whose fingerprint is already known. Every other record is flattened into a
  92-column row: 5 base fields, then 6 fields for each of the 14 table channel labels, then the station uid,
  the station name and the fingerprint.
- **A window planner.** It cuts the time span into request intervals of at most three days, each of which
  makes at most one table insert, made only when the interval yields rows.

`query.py` supplies the class `Query`. Its checking setters build the clauses of the SQL statements the
scripts send.

| file | module | what it holds |
|---|---|---|
| `base.dfy` | `Base` | `Option`, `Result`, small sequence facts |
| `python.dfy` | `Python` | Python values; `str()` of a value; the decimal text of an int; `str.join` |
| `fingerprint.dfy` | `Fingerprint` | measurement records; `stringifyID`; what a fingerprint determines |
| `rows.dfy` | `Rows` | the row layout; the channel dictionary; the value-level meaning of `rowify`'s loop (`Rowified`) |
| `ingest.dfy` | `Ingest` | class `Ingestion`; the per-window loop of one station |
| `planner.dfy` | `Planner` | the timestep `while` loop; the two interval loops (with and without the nudge) |
| `history.dfy` | `History` | the backfill script's per-station body and its loop over the stations |
| `scraper.dfy` | `Scraper` | the catch-up script's per-station body and its loop over the stations |
| `query.dfy` | `SqlQuery` | the clause setters; class `Query`; `__str__` |

Class `Ingestion` holds the state the scripts keep at module level, updated in place:

- the generated fingerprint list `genIdStrings`;
- the queried fingerprint list `queriedIds`;
- a log of the batches passed to `client.insert_rows`;
- a log of the warnings.

The imperative code is modelled as methods with loops. `rowify`, the row builder, the timestep and interval
loops, the per-window loop, both station loops and the `Query` setters are all methods. Each method is
proved against a value-level function, and the lemmas are stated about that function.

Modelling choices:

- Instants are integers counting microseconds, so the one-second nudge is exact.
- The epoch seconds that `strftime('%s')` gives for a timestamp are a field of the timestamp rather than
  computed.
- Floats and other opaque payloads are `Value.Other`, carried by their `str()` text.

The model follows the code where the code and the project's description differ:

- **There is always at least one interval**, even when the start is at or after the end. The timestep loop
  always appends the end, so there are always at least two timesteps (`Planner.TimestepsShape`).
- **`genIdStrings` is emptied at the end of every `rowify` call**, so it only deduplicates within one
  response. A new record returned for two intervals is inserted twice
  (`Ingest.RepeatAcrossWindowsInsertedTwice`).
- **A station with no stored row ends the catch-up run.** When the latest-entry query returns no row,
  `[begin] = ...` raises `ValueError` and no later station is processed (`Scraper.CatchUp`).

`stringifyID` and `rowify` are the same code in both scripts (`scraper.py:83-98` and
`scraper.py:102-174`); only their docstrings and comments differ. The table below cites the lines in `get_history.py`.

## Model

| member | source | states |
|---|---|---|
| Python.NatTextRoundTrip | get_history.py:107-108 | the decimal digits of an epoch value read back as that value |
| Python.IntTextShape | get_history.py:107-113 | str() of an int is non-empty, starts with '-' exactly when negative, and holds no '-' after its first character and no '_' |
| Python.IntTextInjective | get_history.py:107-113 | two ints with the same str() are equal |
| Python.JoinInjective | get_history.py:111 | when no element is empty or holds the separator, the "-".join text determines the element sequence |
| Python.JoinOneChanged | get_history.py:111 | changing exactly one element changes the joined text, whatever the elements contain |
| Fingerprint.ScaledTexts | get_history.py:111 | one text per channel, str(Scaled) of channel k at position k (API order) |
| Fingerprint.FingerprintDecodes | get_history.py:99-114 | for one station, equal fingerprints imply equal begin and end epochs and equal joined Scaled texts |
| Fingerprint.FingerprintIdentifiesValues | get_history.py:99-114 | with non-empty, dash-free Scaled texts, equal fingerprints imply equal epochs and equal Scaled sequences |
| Fingerprint.EpochChangeChangesFingerprint | get_history.py:107-113 | records whose begin or end epochs differ have different fingerprints |
| Fingerprint.ValueChangeChangesFingerprint | get_history.py:111-113 | records that differ in exactly one channel's Scaled text have different fingerprints |
| Rows.ChannelDictKeys | get_history.py:155 | the channel dictionary has a key exactly for each label the record reported |
| Rows.ChannelDictLastWins | get_history.py:155 | a label repeated within a record maps to its last channel |
| Rows.ChannelKeysExact | get_history.py:156 | the key list names every reported label, each exactly once |
| Rows.KeyListMatchesDict | get_history.py:172-173 | a label is in the key list exactly when the dictionary holds it |
| Rows.GroupsLayout | get_history.py:171-178 | the channel part is six columns per table label, block j belonging to label j |
| Rows.RowWidth | get_history.py:145-180 | every row is 5 + 6*14 + len(info) + 1 wide (92 for two info values) whatever channels were reported; it starts with the base fields and ends with the info and the fingerprint |
| Rows.RowChannels | get_history.py:150-178 | block j holds the six fields of the last channel with label j, or six Nones when the label is missing |
| Rows.UnrecognizedIgnored | get_history.py:171-178 | dropping the channels with labels outside the table leaves the row unchanged |
| Rows.UnrecognizedWarningsExact | get_history.py:159-162 | one warning per key outside the table labels, tagged with the fingerprint, none repeated |
| Rows.UnrecognizedWarned | get_history.py:159-162 | a record warns exactly about the labels it reported that have no table columns |
| Rows.IdsAt | get_history.py:137-138 | the fingerprint list holds record k's fingerprint at position k and is prefix-compatible |
| Rows.RowifiedNext | get_history.py:136-184 | loop-step lemma for `Ingest.Ingestion.Rowify`: the result for the first k + 1 records is one `Step` after the result for the first k |
| Rows.RowifiedShape | get_history.py:136-181 | the generated list grows by one fingerprint per row, in row order; each row is 90 + len(info) wide and ends with its fingerprint; no new fingerprint was stored or generated before; no two are equal |
| Rows.GeneratedIff | get_history.py:141-142 | after the loop a fingerprint is generated exactly when it was before, or it belongs to a record and is not stored |
| Rows.RowifiedStep | get_history.py:141-181 | record k appends exactly its own row when it is the first with its fingerprint and that fingerprint is not known, and nothing otherwise, so rows keep record order |
| Rows.EveryRecordAccounted | get_history.py:136-184 | every record's fingerprint was stored, was generated before, or tags a new row |
| Rows.AllStoredYieldsNothing | get_history.py:141-184 | when every fingerprint is stored, no row is produced and nothing is generated |
| Ingest.Info | get_history.py:248-249 | the additional info is two values, the station uid first |
| Ingest.NonEmptyMembers | get_history.py:250-251 | every inserted batch is a non-empty per-interval result |
| Ingest.NonEmptyKeepsAll | get_history.py:250-251 | every non-empty per-interval result is inserted |
| Ingest.NonEmptyOfEmpties | get_history.py:250-251 | no batch is inserted when every interval yields nothing |
| Ingest.BatchesNext | get_history.py:241-252 | one more interval adds its rows as one batch exactly when it yields any |
| Ingest.Ingestion.constructor | get_history.py:54-58 | the run starts with both fingerprint lists empty and nothing inserted or logged |
| Ingest.Ingestion.BuildRow | get_history.py:145-181 | the row built field by field is the row layout above, and the warnings logged are the unrecognised-label warnings |
| Ingest.Ingestion.VisitRecord | get_history.py:136-184 | one pass of the record loop changes the rows, the generated list and the warnings exactly as one step of `Rowified` does |
| Ingest.Ingestion.Rowify | get_history.py:126-189 | an undecodable body yields [], logs a warning and leaves the lists alone; otherwise the rows and warnings are those of `Rowified` and the generated list ends empty |
| Ingest.Ingestion.IngestWindow | get_history.py:247-252 | one interval inserts its rows as one batch exactly when it yields any, logs that interval's warnings, and leaves the generated list empty |
| Ingest.LoopWarningsNext | get_history.py:241-252 | loop-step lemma for `Ingest.Ingestion.IngestWindows`: one more interval appends exactly its own warnings |
| Ingest.Ingestion.IngestWindows | get_history.py:241-252 | the inserts are the non-empty per-interval row lists in interval order, the warnings are the per-interval warnings, and the generated list stays empty |
| Ingest.GoodBatchFitsTable | get_history.py:180-181 | a well-formed batch of a station fits the 92-column table |
| Ingest.WindowRowsGood | get_history.py:136-189 | the rows of one response, when there are any, are 90 + len(info) wide, tagged with distinct fingerprints that were not queried |
| Ingest.BatchesWellFormed | get_history.py:241-252 | every batch a station inserts is such a good batch |
| Ingest.StationBatchesFitTable | get_history.py:241-252 | every batch a station inserts, with its UniqueId and stationName, fits the 92-column table |
| Ingest.WindowReingest | get_history.py:141 | a response yields nothing once all its new fingerprints and the earlier queried ones are queried |
| Ingest.ReingestInsertsNothing | get_history.py:241-252 | re-running a station's intervals with every inserted fingerprint queried inserts nothing |
| Ingest.RepeatAcrossWindowsInsertedTwice | get_history.py:187 | a new record returned for two intervals is inserted once per interval |
| Ingest.SingleRecordWindow | get_history.py:136-181 | a response with one record that is not queried yields exactly that record's row |
| Planner.PlanTimesteps | get_history.py:229-232 | the timestep loop computes `Timesteps(begin, end, delta)` |
| Planner.TimestepsShape | get_history.py:229-232 | at least two timesteps, from begin to exactly end; every non-final step is delta; the loop went on while end was more than delta away and stopped once it was not |
| Planner.TimestepsCount | get_history.py:229-232 | the number of intervals is one when end is at most delta past begin, and the span divided by delta rounded up otherwise |
| Planner.PlanHistoryWindows | get_history.py:235-239 | the interval loop gives interval i from timestep i (nudged by a second unless i = 0) to timestep i + 1 |
| Planner.PlanScraperWindows | scraper.py:216-219 | the interval loop gives interval i from timestep i plus a second to timestep i + 1 |
| Planner.HistoryPlan | get_history.py:229-239 | the backfill plan has at least one interval, starts at begin, ends exactly at end, each interval starts a second after the previous one ends, none is longer than delta, and only the last can be inverted, exactly when stated |
| Planner.ScraperPlan | scraper.py:209-219 | the catch-up plan has at least one interval, starts a second after the watermark, ends exactly at now, intervals follow each other a second apart, none is longer than delta minus a second, and only the last can be inverted |
| Planner.TenDaysInThreeDaySteps | get_history.py:228-239 | ten days in three-day steps give four intervals, the last from nine days and one second to ten days |
| History.RunBatchesFitTable | get_history.py:193-256 | every batch of a backfill run fits the 92-column table |
| History.BackfillStation | get_history.py:200-255 | one station inserts the batches of its planned intervals checked against its seed list, and leaves both lists empty |
| History.Backfill | get_history.py:193-256 | the run inserts the stations' batches in station order and ends with both lists empty |
| Scraper.RunBatchesFitTable | scraper.py:178-236 | every batch of a catch-up run fits the 92-column table |
| Scraper.CatchUpStation | scraper.py:185-235 | succeeds exactly when the latest-entry query returned one row; it then inserts the batches of the nudged plan from the watermark, checked against the latest stored fingerprints, and leaves both lists empty; otherwise it inserts nothing |
| Scraper.CatchUp | scraper.py:178-236 | the stations before the first one without a watermark are processed in full and in order; the run stops there |
| SqlQuery.TextClause | query.py:68-119 | SELECT/FROM/WHERE/ORDER BY are accepted exactly for a str (and None where optional, giving ""); otherwise TypeError; the text is the clause prefix followed by the argument |
| SqlQuery.LimitClause | query.py:126-135 | LIMIT is accepted exactly for None (giving ""), a str, an int or a bool; otherwise TypeError; the text is "LIMIT " followed by str() of the argument |
| SqlQuery.WithAsClause | query.py:46-61 | WITHAS None gives ""; a non-tuple gives TypeError; more than two items gives RuntimeError; fewer gives ValueError; a pair (w, q) gives "WITH w AS (q) " |
| SqlQuery.FirstError | query.py:21-27 | no error exactly when every clause succeeded; otherwise the error of the first failing clause, all earlier clauses having succeeded |
| SqlQuery.Compose | query.py:9-38 | constructing a query fails exactly when a setter raises, with the first exception in constructor order |
| SqlQuery.Query.Blank | query.py:13-19 | all six clauses start out empty |
| SqlQuery.Query.SetSelect | query.py:68-74 | stores the SELECT clause or raises, leaving the field unchanged |
| SqlQuery.Query.SetSource | query.py:81-87 | stores the FROM clause or raises, leaving the field unchanged |
| SqlQuery.Query.SetWhere | query.py:94-103 | stores the WHERE clause or raises, leaving the field unchanged |
| SqlQuery.Query.SetOrderBy | query.py:110-119 | stores the ORDER BY clause or raises, leaving the field unchanged |
| SqlQuery.Query.SetLimit | query.py:126-135 | stores the LIMIT clause or raises, leaving the field unchanged |
| SqlQuery.Query.SetWithAs | query.py:46-61 | stores the WITH clause or raises, leaving the field unchanged |
| SqlQuery.Query.New | query.py:9-27 | the setters run in order SELECT, FROM, WHERE, ORDERBY, LIMIT, WITHAS; the first exception ends construction; otherwise each field holds its clause text and str() of the new query is the composed text |
| SqlQuery.SelectFromOnly | query.py:29-38 | with only SELECT s and FROM f (and an optional WITH pair) the text is the WITH prefix, then "SELECT s FROM f", then three spaces |
| SqlQuery.ErrorFromFirstBadArgument | query.py:22-27 | a non-str SELECT raises TypeError whatever follows; a bad WITHAS decides only when every other argument is good |
| SqlQuery.FilteredQuery | query.py:29-38 | with all four text clauses and no WITH, the text is "SELECT s FROM f WHERE w ORDER BY o " followed by the LIMIT clause |
| SqlQuery.WithAsLeads | query.py:31-32 | with a WITH pair the text begins with "WITH w AS (q) " and "SELECT " follows right after it |

## Left out

- **HTTP and BigQuery.**
  - The requests to the airmonitors API are inputs to the model:
    - a station's period request becomes `History.StationInput.firstTimestamp`;
    - a stationdata request becomes the function `api`, giving a `Response` for a uid and an interval.
  - The BigQuery queries are inputs too: the stored fingerprints (`storedIds`) and the latest-entry
    watermark (`Scraper.StationInput.latest`).
  - `client.insert_rows` appends to `Ingestion.inserted`.
  - The request URL text and `queryThis` are not modelled.
- **Malformed responses.** A JSON body that is not a list of well-formed records is not modelled, and neither
  is a record that lacks a key, which raises `KeyError`. A body that is not JSON at all is `NotJson`.
- **Date and time text.** `isoformat()`, `fromisoformat()` and `strftime('%s')` depend on the platform and
  its time zone.
  - The ISO text is carried as it is.
  - The epoch seconds are a field of each timestamp.
  - Planner instants are plain integers (microseconds), not datetimes.
- **Floats and other payloads.** These are opaque `Value.Other` values, carried by their `str()` text.
- **Logging.** The logging calls, the debug message about the channel count, the progress `print`s and the
  deletion of `rawdata` and `rows` are not modelled. The warning-level messages are modelled as `Warning`
  values.
- **Module-level bootstrap.** Credentials, the logger, the station list request, and dataset and table
  creation are not modelled. `tools.py` is not part of this model.
- **The backfill script's dedup query.** Its query for stored fingerprints uses the name `project`, which
  `get_history.py` never defines, so that path raises `NameError`. The model takes its would-be result as the
  input `storedIds` instead.
- **How the scripts build their query texts.** Both scripts pass `str()` of the fingerprint query as the WITH
  body. `SqlQuery.FilteredQuery` and `SqlQuery.SelectFromOnly` state what those texts are, but the ingestion
  modules take the results of the queries as inputs rather than composing them.
- Ingest.Ingestion.Rowify: requires a non-empty info list. The source reads `additional_info[0]` for
  each record, so an empty list raises `IndexError` only when the response has records. Both scripts always
  pass two values.
- SqlQuery.Query.Blank: empty texts, not None. The six fields start as `""` rather than `None`. A
  constructor that raises never returns the object, so the difference cannot be observed.
- **Nested tuples and other containers as setter arguments.** These are `Value.Other`. `isinstance` on them
  gives the same verdicts as on any non-str, non-int value.
