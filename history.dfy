/**
  The backfill script: every station's measurements from its first timestamp
  up to the instant the run started, requested in three-day intervals.
*/
module History {
  import opened Python
  import opened Rows
  import opened Planner
  import opened Ingest
  import opened Base

  /** The step of the backfill plan, in days. */
  const TimestepDays: int := 3

  /** The step of the backfill plan. */
  const Delta: int := TimestepDays * Day

  /**
    What the run learns about one station outside this model: the station, its
    first measurement instant (from the period request) and the fingerprints
    already stored for it (from the table, when it existed at start-up).
  */
  datatype StationInput = StationInput(station: Station, firstTimestamp: int, storedIds: seq<string>)

  /** The intervals requested for a station whose data starts at begin, with the run's end. */
  function Intervals(begin: int, end: int): seq<Window>
  {
    HistoryWindows(Timesteps(begin, end, Delta))
  }

  /** The queried fingerprints a station's intervals are checked against. */
  function Seed(checkForDuplicates: bool, input: StationInput): seq<string>
  {
    if checkForDuplicates then input.storedIds else []
  }

  /** The batches the run inserts for one station. */
  function StationBatches(input: StationInput, checkForDuplicates: bool, end: int, api: (Value, Window) -> Response): seq<seq<Row>>
  {
    Batches(Intervals(input.firstTimestamp, end), Info(input.station), Seed(checkForDuplicates, input), api)
  }

  /** The warnings the run logs for one station. */
  function StationWarnings(input: StationInput, checkForDuplicates: bool, end: int, api: (Value, Window) -> Response): seq<Warning>
  {
    LoopWarnings(Intervals(input.firstTimestamp, end), Info(input.station), Seed(checkForDuplicates, input), api)
  }

  /** The batches of the whole run, station after station. */
  function RunBatches(inputs: seq<StationInput>, checkForDuplicates: bool, end: int, api: (Value, Window) -> Response): seq<seq<Row>>
  {
    if inputs == [] then []
    else
      var n := |inputs| - 1;
      RunBatches(inputs[..n], checkForDuplicates, end, api) + StationBatches(inputs[n], checkForDuplicates, end, api)
  }

  /** The warnings of the whole run, station after station. */
  function RunWarnings(inputs: seq<StationInput>, checkForDuplicates: bool, end: int, api: (Value, Window) -> Response): seq<Warning>
  {
    if inputs == [] then []
    else
      var n := |inputs| - 1;
      RunWarnings(inputs[..n], checkForDuplicates, end, api) + StationWarnings(inputs[n], checkForDuplicates, end, api)
  }

  /** Every batch of the run fits the 92-column table. */
  lemma {:induction false} RunBatchesFitTable(inputs: seq<StationInput>, checkForDuplicates: bool, end: int, api: (Value, Window) -> Response)
    ensures TableBatches(RunBatches(inputs, checkForDuplicates, end, api))
  {
    if inputs != [] {
      var n := |inputs| - 1;
      RunBatchesFitTable(inputs[..n], checkForDuplicates, end, api);
      StationBatchesFitTable(Intervals(inputs[n].firstTimestamp, end), Info(inputs[n].station), Seed(checkForDuplicates, inputs[n]), api);
      TableBatchesConcat(RunBatches(inputs[..n], checkForDuplicates, end, api), StationBatches(inputs[n], checkForDuplicates, end, api));
    }
  }

  /**
    One station: seed the queried list when the table existed, plan the
    timesteps and intervals, run the interval loop, then empty both lists.
  */
  method BackfillStation(st: Ingestion, input: StationInput, checkForDuplicates: bool, end: int,
                         api: (Value, Window) -> Response)
    requires st.Idle()
    modifies st
    ensures st.Idle()
    ensures st.inserted == old(st.inserted) + StationBatches(input, checkForDuplicates, end, api)
    ensures st.warnings == old(st.warnings) + StationWarnings(input, checkForDuplicates, end, api)
  {
    var info := Info(input.station);
    if checkForDuplicates {
      st.queriedIds := input.storedIds;
    }
    var timesteps := PlanTimesteps(input.firstTimestamp, end, Delta);
    var intervals := PlanHistoryWindows(timesteps);
    st.IngestWindows(intervals, info, api);
    st.queriedIds := [];
    st.genIdStrings := [];
  }

  /** The loop over all stations, each from its first timestamp to the same end. */
  method Backfill(st: Ingestion, inputs: seq<StationInput>, checkForDuplicates: bool, end: int,
                  api: (Value, Window) -> Response)
    requires st.Idle()
    modifies st
    ensures st.Idle()
    ensures st.inserted == old(st.inserted) + RunBatches(inputs, checkForDuplicates, end, api)
    ensures st.warnings == old(st.warnings) + RunWarnings(inputs, checkForDuplicates, end, api)
  {
    for num := 0 to |inputs|
      invariant st.Idle()
      invariant st.inserted == old(st.inserted) + RunBatches(inputs[..num], checkForDuplicates, end, api)
      invariant st.warnings == old(st.warnings) + RunWarnings(inputs[..num], checkForDuplicates, end, api)
    {
      assert inputs[..num + 1][..num] == inputs[..num] && inputs[..num + 1][num] == inputs[num];
      BackfillStation(st, inputs[num], checkForDuplicates, end, api);
      AppendTwice(old(st.inserted), RunBatches(inputs[..num], checkForDuplicates, end, api),
                  StationBatches(inputs[num], checkForDuplicates, end, api));
      AppendTwice(old(st.warnings), RunWarnings(inputs[..num], checkForDuplicates, end, api),
                  StationWarnings(inputs[num], checkForDuplicates, end, api));
    }
    assert inputs[..|inputs|] == inputs;
  }
}
