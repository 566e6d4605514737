/**
  The catch-up script: every station's measurements from the latest one stored
  in the table up to the instant the run started, requested in intervals of at
  most three days, checked against the latest stored fingerprints.
*/
module Scraper {
  import opened Base
  import opened Python
  import opened Rows
  import opened Planner
  import opened Ingest

  /** The largest step of the catch-up plan, in days. */
  const TimestepDaysMax: int := 3

  /** The largest step of the catch-up plan. */
  const Delta: int := TimestepDaysMax * Day

  /** How many of the latest stored fingerprints a station is checked against. */
  const LatestN: int := 200

  /**
    What the run learns about one station outside this model: the station, the
    fingerprints of its latest stored rows (at most `LatestN` of them, the LIMIT
    of the query that reads them; the model needs no bound), and the TBTimestamp of every row the
    latest-entry query returned (at most one, as that query is limited to one row).
  */
  datatype StationInput = StationInput(station: Station, storedIds: seq<string>, latest: seq<int>)

  /** The latest-entry query gave exactly one row, so the watermark can be unpacked. */
  predicate HasWatermark(input: StationInput)
  {
    |input.latest| == 1
  }

  /** The intervals requested for a station whose latest stored entry is at begin. */
  function Intervals(begin: int, now: int): seq<Window>
  {
    ScraperWindows(Timesteps(begin, now, Delta))
  }

  /** The batches the run inserts for one station. */
  function StationBatches(input: StationInput, now: int, api: (Value, Window) -> Response): seq<seq<Row>>
    requires HasWatermark(input)
  {
    Batches(Intervals(input.latest[0], now), Info(input.station), input.storedIds, api)
  }

  /** The warnings the run logs for one station. */
  function StationWarnings(input: StationInput, now: int, api: (Value, Window) -> Response): seq<Warning>
    requires HasWatermark(input)
  {
    LoopWarnings(Intervals(input.latest[0], now), Info(input.station), input.storedIds, api)
  }

  /** The batches of the stations in order. */
  function RunBatches(inputs: seq<StationInput>, now: int, api: (Value, Window) -> Response): seq<seq<Row>>
    requires forall k :: 0 <= k < |inputs| ==> HasWatermark(inputs[k])
  {
    if inputs == [] then []
    else
      var n := |inputs| - 1;
      RunBatches(inputs[..n], now, api) + StationBatches(inputs[n], now, api)
  }

  /** The warnings of the stations in order. */
  function RunWarnings(inputs: seq<StationInput>, now: int, api: (Value, Window) -> Response): seq<Warning>
    requires forall k :: 0 <= k < |inputs| ==> HasWatermark(inputs[k])
  {
    if inputs == [] then []
    else
      var n := |inputs| - 1;
      RunWarnings(inputs[..n], now, api) + StationWarnings(inputs[n], now, api)
  }

  /** One more station extends the run's batches and warnings by that station's. */
  lemma RunNext(inputs: seq<StationInput>, now: int, api: (Value, Window) -> Response, i: nat)
    requires i < |inputs| && forall k :: 0 <= k <= i ==> HasWatermark(inputs[k])
    ensures RunBatches(inputs[..i + 1], now, api) == RunBatches(inputs[..i], now, api) + StationBatches(inputs[i], now, api)
    ensures RunWarnings(inputs[..i + 1], now, api) == RunWarnings(inputs[..i], now, api) + StationWarnings(inputs[i], now, api)
  {
    var done := inputs[..i + 1];
    assert done[..i] == inputs[..i] && done[i] == inputs[i];
  }

  /** Every batch of the run fits the 92-column table. */
  lemma {:induction false} RunBatchesFitTable(inputs: seq<StationInput>, now: int, api: (Value, Window) -> Response)
    requires forall k :: 0 <= k < |inputs| ==> HasWatermark(inputs[k])
    ensures TableBatches(RunBatches(inputs, now, api))
  {
    if inputs != [] {
      var n := |inputs| - 1;
      RunBatchesFitTable(inputs[..n], now, api);
      StationBatchesFitTable(Intervals(inputs[n].latest[0], now), Info(inputs[n].station), inputs[n].storedIds, api);
      TableBatchesConcat(RunBatches(inputs[..n], now, api), StationBatches(inputs[n], now, api));
    }
  }

  /**
    One station: take the latest stored fingerprints as the queried list, unpack
    the watermark, plan the nudged intervals up to now, run the interval loop,
    then empty both lists. Without exactly one watermark row the unpacking
    raises ValueError, which ends the run with the queried list still set.
  */
  method CatchUpStation(st: Ingestion, input: StationInput, now: int, api: (Value, Window) -> Response)
    returns (ok: bool)
    requires st.Idle()
    modifies st
    ensures ok <==> HasWatermark(input)
    ensures ok ==> (st.Idle()
      && st.inserted == old(st.inserted) + StationBatches(input, now, api)
      && st.warnings == old(st.warnings) + StationWarnings(input, now, api))
    ensures !ok ==> (st.queriedIds == input.storedIds && st.genIdStrings == []
      && st.inserted == old(st.inserted) && st.warnings == old(st.warnings))
  {
    var info := Info(input.station);
    st.queriedIds := input.storedIds;
    if |input.latest| != 1 {
      return false;
    }
    var begin := input.latest[0];
    var timesteps := PlanTimesteps(begin, now, Delta);
    var intervals := PlanScraperWindows(timesteps);
    st.IngestWindows(intervals, info, api);
    st.queriedIds := [];
    st.genIdStrings := [];
    ok := true;
  }

  /**
    The loop over all stations. It stops at the first station without a
    watermark; `completed` stations were processed in full before that.
  */
  method CatchUp(st: Ingestion, inputs: seq<StationInput>, now: int, api: (Value, Window) -> Response)
    returns (completed: nat)
    requires st.Idle()
    modifies st
    ensures completed <= |inputs|
    ensures forall k :: 0 <= k < completed ==> HasWatermark(inputs[k])
    ensures completed < |inputs| ==> !HasWatermark(inputs[completed])
    ensures st.inserted == old(st.inserted) + RunBatches(inputs[..completed], now, api)
    ensures st.warnings == old(st.warnings) + RunWarnings(inputs[..completed], now, api)
    ensures completed == |inputs| ==> st.Idle()
  {
    completed := 0;
    while completed < |inputs|
      invariant completed <= |inputs| && st.Idle()
      invariant forall k :: 0 <= k < completed ==> HasWatermark(inputs[k])
      invariant st.inserted == old(st.inserted) + RunBatches(inputs[..completed], now, api)
      invariant st.warnings == old(st.warnings) + RunWarnings(inputs[..completed], now, api)
    {
      var ok := CatchUpStation(st, inputs[completed], now, api);
      if !ok {
        return;
      }
      RunNext(inputs, now, api, completed);
      AppendTwice(old(st.inserted), RunBatches(inputs[..completed], now, api),
                  StationBatches(inputs[completed], now, api));
      AppendTwice(old(st.warnings), RunWarnings(inputs[..completed], now, api),
                  StationWarnings(inputs[completed], now, api));
      completed := completed + 1;
    }
  }
}
