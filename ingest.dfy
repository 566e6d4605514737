/**
  The mutable run state both scripts keep at module level — the generated and
  the queried fingerprint lists — together with the table insert and the
  warning log, and the two procedures that change it: `rowify` and the
  per-window loop of one station.
*/
module Ingest {
  import opened Base
  import opened Python
  import opened Fingerprint
  import opened Rows
  import opened Planner

  /** What the stationdata request for one interval gave: a list of records, or a body that is not JSON. */
  datatype Response = NotJson | Body(points: seq<Point>)

  /** A station as the station list describes it. */
  datatype Station = Station(uniqueId: Value, stationName: Value)

  /** The additional_info both scripts pass to `rowify`: the station's uid, then its name. */
  function Info(s: Station): (info: seq<Value>)
    ensures |info| == 2 && info[0] == s.uniqueId
  {
    [s.uniqueId, s.stationName]
  }

  /** The rows one response yields, starting from an empty generated list. */
  function WindowRows(r: Response, info: seq<Value>, queried: seq<string>): seq<Row>
    requires |info| > 0
  {
    match r
    case NotJson => []
    case Body(ps) => Rowified(ps, Ids(ps, info[0]), info, [], queried).rows
  }

  /** The warnings one response yields. */
  function WindowWarnings(r: Response, info: seq<Value>, queried: seq<string>): seq<Warning>
    requires |info| > 0
  {
    match r
    case NotJson => [NoData]
    case Body(ps) => Rowified(ps, Ids(ps, info[0]), info, [], queried).warnings
  }

  /**
    The rows each interval's response yields, in interval order. The station
    uid is info[0], and api(uid, w) is what the stationdata request for
    interval w returns.
  */
  function PerWindow(ws: seq<Window>, info: seq<Value>, queried: seq<string>, api: (Value, Window) -> Response): seq<seq<Row>>
    requires |info| > 0
  {
    seq(|ws|, i requires 0 <= i < |ws| => WindowRows(api(info[0], ws[i]), info, queried))
  }

  /** The non-empty entries of rs, in order. */
  function NonEmpty(rs: seq<seq<Row>>): seq<seq<Row>>
  {
    if rs == [] then []
    else NonEmpty(rs[..|rs| - 1]) + (if rs[|rs| - 1] != [] then [rs[|rs| - 1]] else [])
  }

  /** The insert batches of one station's interval loop: the rows of every interval that yields any, in interval order. */
  function Batches(ws: seq<Window>, info: seq<Value>, queried: seq<string>, api: (Value, Window) -> Response): seq<seq<Row>>
    requires |info| > 0
  {
    NonEmpty(PerWindow(ws, info, queried, api))
  }

  /** Every entry of NonEmpty(rs) is a non-empty entry of rs. */
  lemma {:induction false} NonEmptyMembers(rs: seq<seq<Row>>)
    ensures forall n :: 0 <= n < |NonEmpty(rs)| ==> NonEmpty(rs)[n] != [] && NonEmpty(rs)[n] in rs
  {
    if rs != [] {
      var pre := rs[..|rs| - 1];
      NonEmptyMembers(pre);
      assert forall x :: x in pre ==> x in rs;
    }
  }

  /** Every non-empty entry of rs is an entry of NonEmpty(rs). */
  lemma {:induction false} NonEmptyKeepsAll(rs: seq<seq<Row>>)
    ensures forall i :: 0 <= i < |rs| && rs[i] != [] ==> rs[i] in NonEmpty(rs)
  {
    if rs != [] {
      var pre := rs[..|rs| - 1];
      NonEmptyKeepsAll(pre);
      forall i | 0 <= i < |rs| && rs[i] != []
        ensures rs[i] in NonEmpty(rs)
      {
        if i < |rs| - 1 {
          assert rs[i] == pre[i];
        }
      }
    }
  }

  /** When every entry is empty there is nothing left. */
  lemma {:induction false} NonEmptyOfEmpties(rs: seq<seq<Row>>)
    requires forall i :: 0 <= i < |rs| ==> rs[i] == []
    ensures NonEmpty(rs) == []
  {
    if rs != [] {
      NonEmptyOfEmpties(rs[..|rs| - 1]);
    }
  }

  /** One more interval adds its rows as one more batch exactly when it yields any. */
  lemma BatchesNext(ws: seq<Window>, info: seq<Value>, queried: seq<string>, api: (Value, Window) -> Response, i: nat)
    requires |info| > 0 && i < |ws|
    ensures var rows := WindowRows(api(info[0], ws[i]), info, queried);
      Batches(ws[..i + 1], info, queried, api) == Batches(ws[..i], info, queried, api) + (if rows != [] then [rows] else [])
  {
    var rs := PerWindow(ws[..i + 1], info, queried, api);
    assert rs[..i] == PerWindow(ws[..i], info, queried, api);
  }

  /** The warnings of one station's interval loop, in interval order. */
  function LoopWarnings(ws: seq<Window>, info: seq<Value>, queried: seq<string>, api: (Value, Window) -> Response): seq<Warning>
    requires |info| > 0
  {
    if ws == [] then []
    else LoopWarnings(ws[..|ws| - 1], info, queried, api) + WindowWarnings(api(info[0], ws[|ws| - 1]), info, queried)
  }

  /** One more interval adds its warnings. */
  lemma LoopWarningsNext(ws: seq<Window>, info: seq<Value>, queried: seq<string>, api: (Value, Window) -> Response, i: nat)
    requires |info| > 0 && i < |ws|
    ensures LoopWarnings(ws[..i + 1], info, queried, api)
      == LoopWarnings(ws[..i], info, queried, api) + WindowWarnings(api(info[0], ws[i]), info, queried)
  {
    var w := ws[..i + 1];
    assert w[..i] == ws[..i] && w[i] == ws[i];
  }

  class Ingestion {
    /** Fingerprints generated by the current `rowify` call. */
    var genIdStrings: seq<string>
    /** Fingerprints of the current station read back from the table. */
    var queriedIds: seq<string>
    /** Every batch passed to the table insert, oldest first. */
    var inserted: seq<seq<Row>>
    /** Every warning logged, oldest first. */
    var warnings: seq<Warning>

    /** Between stations both fingerprint lists are empty. */
    predicate Idle()
      reads this
    {
      genIdStrings == [] && queriedIds == []
    }

    /** The module-level state when a script starts. */
    constructor ()
      ensures Idle() && inserted == [] && warnings == []
    {
      genIdStrings := [];
      queriedIds := [];
      inserted := [];
      warnings := [];
    }

    /**
      The body of `rowify` for a new record: the row fields, the warning loop
      over the channel dictionary's keys and the loop over the table labels.
    */
    method BuildRow(point: Point, info: seq<Value>, idstring: string) returns (row: Row)
      modifies this`warnings
      ensures row == RowOf(point, info, idstring)
      ensures warnings == old(warnings) + UnrecognizedWarnings(ChannelKeys(point.channels), idstring)
    {
      row := BaseFields(point);
      var channelDict := ChannelDict(point.channels);
      var channelDictKeys := ChannelKeys(point.channels);

      for k := 0 to |channelDictKeys|
        invariant warnings == old(warnings) + UnrecognizedWarnings(channelDictKeys[..k], idstring)
      {
        assert channelDictKeys[..k + 1][..k] == channelDictKeys[..k];
        var cdk := channelDictKeys[k];
        if cdk !in TableChannels {
          warnings := warnings + [UnrecognizedLabel(cdk, idstring)];
          AppendTwice(old(warnings), UnrecognizedWarnings(channelDictKeys[..k], idstring), [UnrecognizedLabel(cdk, idstring)]);
        }
      }
      assert channelDictKeys[..|channelDictKeys|] == channelDictKeys;

      for j := 0 to |TableChannels|
        invariant row == BaseFields(point) + Groups(channelDict, TableChannels[..j])
        invariant warnings == old(warnings) + UnrecognizedWarnings(channelDictKeys, idstring)
      {
        var tch := TableChannels[j];
        assert TableChannels[..j + 1][..j] == TableChannels[..j] && TableChannels[..j + 1][j] == tch;
        assert Groups(channelDict, TableChannels[..j + 1]) == Groups(channelDict, TableChannels[..j]) + Group(channelDict, tch);
        AppendTwice(BaseFields(point), Groups(channelDict, TableChannels[..j]), Group(channelDict, tch));
        KeyListMatchesDict(point.channels, tch);
        if tch in channelDictKeys {
          var ch := channelDict[tch];
          row := row + Fields(ch);
        } else {
          row := row + Filler;
        }
      }
      assert TableChannels[..|TableChannels|] == TableChannels;
      row := row + info + [Str(idstring)];
    }

    /**
      One pass of `rowify`'s record loop, after the loop has produced prev
      (its rows are rows, and its warnings follow log): a record whose
      fingerprint is in neither list is recorded as generated and its row
      appended; any other record logs a duplicate.
    */
    method VisitRecord(point: Point, info: seq<Value>, rows: seq<Row>, ghost log: seq<Warning>, ghost prev: Outcome)
      returns (rows': seq<Row>)
      requires |info| > 0
      requires prev.rows == rows && prev.gen == genIdStrings && warnings == log + prev.warnings
      modifies this`genIdStrings, this`warnings
      ensures var next := Step(prev, point, StringifyId(point, info[0]), info, queriedIds);
        rows' == next.rows && genIdStrings == next.gen && warnings == log + next.warnings
    {
      var uid := info[0];
      var idstring := StringifyId(point, uid);
      if idstring !in genIdStrings && idstring !in queriedIds {
        genIdStrings := genIdStrings + [idstring];
        ghost var added := UnrecognizedWarnings(ChannelKeys(point.channels), idstring);
        var row := BuildRow(point, info, idstring);
        rows' := rows + [row];
        AppendTwice(log, prev.warnings, added);
      } else {
        warnings := warnings + [DuplicateId(idstring)];
        rows' := rows;
        AppendTwice(log, prev.warnings, [DuplicateId(idstring)]);
      }
    }

    /**
      `rowify` on the response to one request. A body that is not JSON logs a
      warning and yields no rows, leaving both lists alone. Otherwise every record
      is checked against the generated and the queried lists: a new one is
      recorded as generated and yields its row, any other one logs a duplicate;
      at the end the generated list is emptied.
    */
    method Rowify(response: Response, info: seq<Value>) returns (fulldata: seq<Row>)
      requires |info| > 0
      modifies this`genIdStrings, this`warnings
      ensures response.NotJson? ==>
        fulldata == [] && genIdStrings == old(genIdStrings) && warnings == old(warnings) + [NoData]
      ensures response.Body? ==>
        var ps := response.points;
        var o := Rowified(ps, Ids(ps, info[0]), info, old(genIdStrings), queriedIds);
        fulldata == o.rows && genIdStrings == [] && warnings == old(warnings) + o.warnings
    {
      if response.NotJson? {
        warnings := warnings + [NoData];
        return [];
      }
      var rawdata := response.points;
      ghost var ids := Ids(rawdata, info[0]);
      fulldata := [];
      ghost var o := Outcome([], old(genIdStrings), []);
      for i := 0 to |rawdata|
        invariant o == Rowified(rawdata[..i], ids[..i], info, old(genIdStrings), queriedIds)
        invariant fulldata == o.rows && genIdStrings == o.gen && warnings == old(warnings) + o.warnings
      {
        RowifiedNext(rawdata, ids, info, old(genIdStrings), queriedIds, i);
        IdsAt(rawdata, info[0], i);
        ghost var next := Step(o, rawdata[i], ids[i], info, queriedIds);
        fulldata := VisitRecord(rawdata[i], info, fulldata, old(warnings), o);
        o := next;
      }
      assert rawdata[..|rawdata|] == rawdata && ids[..|rawdata|] == ids;
      genIdStrings := [];
    }

    /**
      The body of the interval loop: `rowify` on one response, then one insert
      of its rows when there are any.
    */
    method IngestWindow(response: Response, info: seq<Value>)
      requires |info| > 0 && genIdStrings == []
      modifies this`genIdStrings, this`warnings, this`inserted
      ensures genIdStrings == []
      ensures var rows := WindowRows(response, info, queriedIds);
        inserted == old(inserted) + (if rows != [] then [rows] else [])
      ensures warnings == old(warnings) + WindowWarnings(response, info, queriedIds)
    {
      var rows := Rowify(response, info);
      if |rows| > 0 {
        inserted := inserted + [rows];
      }
    }

    /**
      The loop over one station's intervals: request each interval, run `rowify`
      on the response and insert the rows as one batch when there are any.
    */
    method IngestWindows(intervals: seq<Window>, info: seq<Value>, api: (Value, Window) -> Response)
      requires |info| > 0 && genIdStrings == []
      modifies this`genIdStrings, this`warnings, this`inserted
      ensures genIdStrings == []
      ensures inserted == old(inserted) + Batches(intervals, info, queriedIds, api)
      ensures warnings == old(warnings) + LoopWarnings(intervals, info, queriedIds, api)
    {
      for i := 0 to |intervals|
        invariant genIdStrings == []
        invariant inserted == old(inserted) + Batches(intervals[..i], info, queriedIds, api)
        invariant warnings == old(warnings) + LoopWarnings(intervals[..i], info, queriedIds, api)
      {
        var response := api(info[0], intervals[i]);
        ghost var rows := WindowRows(response, info, queriedIds);
        IngestWindow(response, info);
        BatchesNext(intervals, info, queriedIds, api, i);
        LoopWarningsNext(intervals, info, queriedIds, api, i);
        AppendTwice(old(inserted), Batches(intervals[..i], info, queriedIds, api), if rows != [] then [rows] else []);
        AppendTwice(old(warnings), LoopWarnings(intervals[..i], info, queriedIds, api), WindowWarnings(response, info, queriedIds));
      }
      assert intervals[..|intervals|] == intervals;
    }
  }

  /**
    A batch as the table insert receives it: non-empty; every row 90 + |info|
    fields wide and ending with a fingerprint that was not queried; no two rows
    with the same fingerprint.
  */
  predicate GoodBatch(rows: seq<Row>, info: seq<Value>, queried: seq<string>)
  {
    && rows != []
    && (forall r :: 0 <= r < |rows| ==>
          |rows[r]| == 90 + |info| && Tag(rows[r]).Str? && Tag(rows[r]).s !in queried)
    && (forall a, b :: 0 <= a < b < |rows| ==> Tag(rows[a]) != Tag(rows[b]))
  }

  /**
    A batch the 92-column table accepts: non-empty, every row 92 values wide
    (90 measurement columns, then UniqueId and stationName, then the fingerprint)
    and tagged with a fingerprint string.
  */
  predicate TableBatch(rows: seq<Row>)
  {
    rows != [] && forall r :: 0 <= r < |rows| ==> |rows[r]| == 92 && Tag(rows[r]).Str?
  }

  /** Every batch of a sequence of inserts fits the table. */
  predicate TableBatches(bs: seq<seq<Row>>)
  {
    forall n :: 0 <= n < |bs| ==> TableBatch(bs[n])
  }

  /** A good batch for a station's two-value info fits the table. */
  lemma GoodBatchFitsTable(rows: seq<Row>, info: seq<Value>, queried: seq<string>)
    requires |info| == 2 && GoodBatch(rows, info, queried)
    ensures TableBatch(rows)
  {
  }

  /** Two runs of inserts that each fit the table fit it one after the other. */
  lemma {:induction false} TableBatchesConcat(a: seq<seq<Row>>, b: seq<seq<Row>>)
    requires TableBatches(a) && TableBatches(b)
    ensures TableBatches(a + b)
  {
    forall m | 0 <= m < |a + b|
      ensures TableBatch((a + b)[m])
    {
      if m < |a| {
        assert (a + b)[m] == a[m];
      } else {
        assert (a + b)[m] == b[m - |a|];
      }
    }
  }

  /** The rows of one response, when there are any, form a good batch. */
  lemma WindowRowsGood(r: Response, info: seq<Value>, queried: seq<string>)
    requires |info| > 0
    ensures var rows := WindowRows(r, info, queried); rows != [] ==> GoodBatch(rows, info, queried)
  {
    if r.Body? {
      RowifiedShape(r.points, Ids(r.points, info[0]), info, [], queried);
    }
  }

  /** Every batch a station's interval loop inserts is a good batch. */
  lemma BatchesWellFormed(ws: seq<Window>, info: seq<Value>, queried: seq<string>, api: (Value, Window) -> Response)
    requires |info| > 0
    ensures var bs := Batches(ws, info, queried, api);
      forall n :: 0 <= n < |bs| ==> GoodBatch(bs[n], info, queried)
  {
    var rs, bs := PerWindow(ws, info, queried, api), Batches(ws, info, queried, api);
    NonEmptyMembers(rs);
    forall n | 0 <= n < |bs|
      ensures GoodBatch(bs[n], info, queried)
    {
      var i :| 0 <= i < |rs| && rs[i] == bs[n];
      WindowRowsGood(api(info[0], ws[i]), info, queried);
    }
  }

  /** Every batch a station's interval loop inserts, with its two-value info, fits the table. */
  lemma StationBatchesFitTable(ws: seq<Window>, info: seq<Value>, queried: seq<string>, api: (Value, Window) -> Response)
    requires |info| == 2
    ensures TableBatches(Batches(ws, info, queried, api))
  {
    var bs := Batches(ws, info, queried, api);
    BatchesWellFormed(ws, info, queried, api);
    forall n | 0 <= n < |bs|
      ensures TableBatch(bs[n])
    {
      GoodBatchFitsTable(bs[n], info, queried);
    }
  }

  /**
    One response yields no rows when every fingerprint it yielded rows for, and
    every fingerprint queried before, is now queried.
  */
  lemma WindowReingest(r: Response, info: seq<Value>, queried: seq<string>, stored: seq<string>)
    requires |info| > 0
    requires forall id :: id in queried ==> id in stored
    requires var rows := WindowRows(r, info, queried);
      forall k :: 0 <= k < |rows| ==> Tag(rows[k]).Str? && Tag(rows[k]).s in stored
    ensures WindowRows(r, info, stored) == []
  {
    if r.Body? {
      var ps := r.points;
      var ids := Ids(ps, info[0]);
      var rows := WindowRows(r, info, queried);
      forall k | 0 <= k < |ids|
        ensures ids[k] in stored
      {
        EveryRecordAccounted(ps, ids, info, [], queried, k);
      }
      AllStoredYieldsNothing(ps, ids, info, [], stored);
    }
  }

  /**
    Re-running a station's interval loop over the same intervals and responses,
    with queried fingerprints that include the earlier queried ones and every
    fingerprint the earlier run inserted, inserts nothing.
  */
  lemma ReingestInsertsNothing(ws: seq<Window>, info: seq<Value>, queried: seq<string>,
                                api: (Value, Window) -> Response, stored: seq<string>)
    requires |info| > 0
    requires forall id :: id in queried ==> id in stored
    requires var bs := Batches(ws, info, queried, api);
      forall n, r :: 0 <= n < |bs| && 0 <= r < |bs[n]| ==> Tag(bs[n][r]).Str? && Tag(bs[n][r]).s in stored
    ensures Batches(ws, info, stored, api) == []
  {
    var rs, bs := PerWindow(ws, info, queried, api), Batches(ws, info, queried, api);
    var again := PerWindow(ws, info, stored, api);
    NonEmptyKeepsAll(rs);
    forall i | 0 <= i < |ws|
      ensures again[i] == []
    {
      if rs[i] != [] {
        var n :| 0 <= n < |bs| && bs[n] == rs[i];
      }
      WindowReingest(api(info[0], ws[i]), info, queried, stored);
    }
    NonEmptyOfEmpties(again);
  }

  /**
    The generated list lives for one `rowify` call only: the same new record
    returned for two intervals is inserted twice, once per interval, unless its
    fingerprint was queried from the table.
  */
  lemma RepeatAcrossWindowsInsertedTwice(w1: Window, w2: Window, info: seq<Value>, queried: seq<string>,
                                         api: (Value, Window) -> Response, p: Point)
    requires |info| > 0
    requires api(info[0], w1) == Body([p]) && api(info[0], w2) == Body([p])
    requires StringifyId(p, info[0]) !in queried
    ensures var row := RowOf(p, info, StringifyId(p, info[0]));
      Batches([w1, w2], info, queried, api) == [[row], [row]]
  {
    var row := RowOf(p, info, StringifyId(p, info[0]));
    SingleRecordWindow(p, info, queried);
    var rs := PerWindow([w1, w2], info, queried, api);
    assert rs == [[row], [row]];
    assert rs[..1] == [[row]] && [[row]][..0] == [];
    assert NonEmpty([[row]]) == [[row]];
  }

  /** A response with one record that was not queried yields exactly that record's row. */
  lemma SingleRecordWindow(p: Point, info: seq<Value>, queried: seq<string>)
    requires |info| > 0
    requires StringifyId(p, info[0]) !in queried
    ensures WindowRows(Body([p]), info, queried) == [RowOf(p, info, StringifyId(p, info[0]))]
  {
    var id := StringifyId(p, info[0]);
    assert Ids([p], info[0]) == [id] by {
      assert [p][..0] == [];
    }
    RowifiedNext([p], [id], info, [], queried, 0);
    assert [p][..1] == [p] && [id][..1] == [id];
    assert [p][..0] == [] && [id][..0] == [];
  }
}
