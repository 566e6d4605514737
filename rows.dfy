/**
  The fixed-width table row both scripts build from one record, and the
  value-level meaning of `rowify`'s loop over the records of one response:
  which records become rows, in which order, and what the two fingerprint
  lists hold afterwards.
*/
module Rows {
  import opened Base
  import opened Python
  import opened Fingerprint

  /** A row as handed to the table insert; Python None is PyNone. */
  type Row = seq<Value>

  /** The channel labels the table has columns for, in column order. */
  const TableChannels: seq<string> :=
    ["AIRPRES", "CO", "HUM", "NO", "NO2", "O3", "SO2", "PM1", "PM10", "PM2.5",
     "PARTICLE_COUNT", "TEMP", "TSP", "VOLTAGE"]

  /** The events the scripts log at warning level while building rows. */
  datatype Warning =
    | NoData
    | UnrecognizedLabel(sensorLabel: string, id: string)
    | DuplicateId(id: string)

  /** TBTimestamp, TETimestamp, Latitude, Longitude, Altitude. */
  function BaseFields(p: Point): seq<Value>
  {
    [Str(p.begin.iso), Str(p.end.iso), p.latitude, p.longitude, p.altitude]
  }

  /** PreScaled, Slope, Offset, Scaled, UnitName, Status of one channel. */
  function Fields(ch: Channel): seq<Value>
  {
    [ch.preScaled, ch.slope, ch.offset, ch.scaled, ch.unitName, ch.status]
  }

  /** The six Nones that stand for a channel the record did not report. */
  const Filler: seq<Value> := [PyNone, PyNone, PyNone, PyNone, PyNone, PyNone]

  predicate HasLabel(chs: seq<Channel>, l: string)
  {
    exists i :: 0 <= i < |chs| && chs[i].sensorLabel == l
  }

  /** Channel i is the last one labelled l. */
  predicate LastWith(chs: seq<Channel>, l: string, i: int)
  {
    0 <= i < |chs| && chs[i].sensorLabel == l
    && forall j :: i < j < |chs| ==> chs[j].sensorLabel != l
  }

  /** {ch["SensorLabel"]: ch for ch in channels}: a later channel overwrites an earlier one. */
  function ChannelDict(chs: seq<Channel>): map<string, Channel>
  {
    if chs == [] then map[]
    else ChannelDict(chs[..|chs| - 1])[chs[|chs| - 1].sensorLabel := chs[|chs| - 1]]
  }

  /** list(channelDict.keys()): every label once, in order of first appearance. */
  function ChannelKeys(chs: seq<Channel>): seq<string>
  {
    if chs == [] then []
    else
      var ks := ChannelKeys(chs[..|chs| - 1]);
      if chs[|chs| - 1].sensorLabel in ks then ks else ks + [chs[|chs| - 1].sensorLabel]
  }

  /** The dictionary has a key exactly for the labels the record reported. */
  lemma {:induction false} ChannelDictKeys(chs: seq<Channel>, l: string)
    ensures l in ChannelDict(chs) <==> HasLabel(chs, l)
  {
    if chs != [] {
      var pre := chs[..|chs| - 1];
      ChannelDictKeys(pre, l);
      if HasLabel(chs, l) && chs[|chs| - 1].sensorLabel != l {
        var i :| 0 <= i < |chs| && chs[i].sensorLabel == l;
        assert pre[i].sensorLabel == l;
      }
      if HasLabel(pre, l) {
        var i :| 0 <= i < |pre| && pre[i].sensorLabel == l;
        assert chs[i].sensorLabel == l;
      }
    }
  }

  /** When a label repeats within one record, the dictionary keeps its last channel. */
  lemma {:induction false} ChannelDictLastWins(chs: seq<Channel>, l: string, i: int)
    requires LastWith(chs, l, i)
    ensures l in ChannelDict(chs) && ChannelDict(chs)[l] == chs[i]
  {
    var pre := chs[..|chs| - 1];
    if i < |chs| - 1 {
      assert LastWith(pre, l, i);
      ChannelDictLastWins(pre, l, i);
    }
  }

  /** The key list names every reported label, each exactly once. */
  lemma {:induction false} ChannelKeysExact(chs: seq<Channel>)
    ensures forall l :: l in ChannelKeys(chs) <==> HasLabel(chs, l)
    ensures forall a, b :: 0 <= a < b < |ChannelKeys(chs)| ==> ChannelKeys(chs)[a] != ChannelKeys(chs)[b]
  {
    if chs != [] {
      var pre := chs[..|chs| - 1];
      ChannelKeysExact(pre);
      forall l | HasLabel(chs, l) && chs[|chs| - 1].sensorLabel != l
        ensures HasLabel(pre, l)
      {
        var i :| 0 <= i < |chs| && chs[i].sensorLabel == l;
        assert pre[i].sensorLabel == l;
      }
    }
  }

  /** A label is in the key list exactly when the dictionary has it as a key. */
  lemma KeyListMatchesDict(chs: seq<Channel>, l: string)
    ensures l in ChannelKeys(chs) <==> l in ChannelDict(chs)
  {
    ChannelKeysExact(chs);
    ChannelDictKeys(chs, l);
  }

  /** The six columns of label l. */
  function Group(d: map<string, Channel>, l: string): seq<Value>
  {
    if l in d then Fields(d[l]) else Filler
  }

  /** The channel columns for the labels ls, in order. */
  function Groups(d: map<string, Channel>, ls: seq<string>): seq<Value>
  {
    if ls == [] then [] else Groups(d, ls[..|ls| - 1]) + Group(d, ls[|ls| - 1])
  }

  /** The j-th block of six channel columns of a row. */
  function Slot(row: Row, j: nat): seq<Value>
    requires 11 + 6 * j <= |row|
  {
    row[5 + 6 * j..11 + 6 * j]
  }

  /** The row for record p with fingerprint id: base fields, channel columns, station info, fingerprint. */
  function RowOf(p: Point, info: seq<Value>, id: string): Row
  {
    BaseFields(p) + Groups(ChannelDict(p.channels), TableChannels) + info + [Str(id)]
  }

  /** The last field of a row, where both scripts put the fingerprint. */
  function Tag(row: Row): Value
  {
    if row == [] then PyNone else row[|row| - 1]
  }

  /** The channel block holds six columns per label, block j for label j. */
  lemma {:induction false} GroupsLayout(d: map<string, Channel>, ls: seq<string>)
    ensures |Groups(d, ls)| == 6 * |ls|
    ensures forall j :: 0 <= j < |ls| ==> Groups(d, ls)[6 * j..6 * j + 6] == Group(d, ls[j])
  {
    if ls != [] {
      var pre := ls[..|ls| - 1];
      GroupsLayout(d, pre);
      var g, h := Groups(d, ls), Groups(d, pre);
      assert g == h + Group(d, ls[|ls| - 1]);
      forall j | 0 <= j < |ls|
        ensures g[6 * j..6 * j + 6] == Group(d, ls[j])
      {
        var last := Group(d, ls[|ls| - 1]);
        assert |last| == 6;
        if j < |pre| {
          assert 6 * j + 6 <= 6 * |pre| == |h|;
          SliceOfFirst(h, last, 6 * j, 6 * j + 6);
          assert h[6 * j..6 * j + 6] == Group(d, pre[j]);
          assert pre[j] == ls[j];
          assert g[6 * j..6 * j + 6] == Group(d, ls[j]);
        } else {
          assert j == |pre| && ls[j] == ls[|ls| - 1];
          assert 6 * j == |h| && 6 * j + 6 == |h| + |last|;
          SliceOfSecond(h, last);
          assert g[6 * j..6 * j + 6] == Group(d, ls[j]);
        }
      }
    }
  }

  /**
    Every row is 5 + 6 * 14 + |info| + 1 fields wide (92 for [UniqueId, stationName]),
    whatever channels the record reported; it starts with the base fields and
    ends with the station info and the fingerprint.
  */
  lemma RowWidth(p: Point, info: seq<Value>, id: string)
    ensures |RowOf(p, info, id)| == 5 + 6 * |TableChannels| + |info| + 1 == 90 + |info|
    ensures RowOf(p, info, id)[..5] == BaseFields(p)
    ensures RowOf(p, info, id)[89..89 + |info|] == info
    ensures Tag(RowOf(p, info, id)) == Str(id)
  {
    GroupsLayout(ChannelDict(p.channels), TableChannels);
    var row := RowOf(p, info, id);
    assert row[89..89 + |info|] == info;
  }

  /**
    Channel block j of a row: the six fields of the last channel labelled with
    the j-th table label when the record reported that label, six Nones when it did not.
  */
  lemma RowChannels(p: Point, info: seq<Value>, id: string)
    ensures |RowOf(p, info, id)| == 90 + |info|
    ensures forall j, i :: 0 <= j < |TableChannels| && LastWith(p.channels, TableChannels[j], i) ==>
      Slot(RowOf(p, info, id), j) == Fields(p.channels[i])
    ensures forall j :: 0 <= j < |TableChannels| && !HasLabel(p.channels, TableChannels[j]) ==>
      Slot(RowOf(p, info, id), j) == Filler
  {
    var d := ChannelDict(p.channels);
    GroupsLayout(d, TableChannels);
    RowWidth(p, info, id);
    var row := RowOf(p, info, id);
    var gs := Groups(d, TableChannels);
    forall j | 0 <= j < |TableChannels|
      ensures Slot(row, j) == Group(d, TableChannels[j])
    {
      assert Slot(row, j) == gs[6 * j..6 * j + 6];
    }
    forall j | 0 <= j < |TableChannels|
      ensures HasLabel(p.channels, TableChannels[j]) <==> TableChannels[j] in d
    {
      ChannelDictKeys(p.channels, TableChannels[j]);
    }
    forall j, i | 0 <= j < |TableChannels| && LastWith(p.channels, TableChannels[j], i)
      ensures TableChannels[j] in d && d[TableChannels[j]] == p.channels[i]
    {
      ChannelDictLastWins(p.channels, TableChannels[j], i);
    }
  }

  /** The channels whose label has table columns, in their original order. */
  function Recognized(chs: seq<Channel>): seq<Channel>
  {
    if chs == [] then []
    else if chs[|chs| - 1].sensorLabel in TableChannels then Recognized(chs[..|chs| - 1]) + [chs[|chs| - 1]]
    else Recognized(chs[..|chs| - 1])
  }

  lemma {:induction false} RecognizedDict(chs: seq<Channel>, l: string)
    requires l in TableChannels
    ensures l in ChannelDict(Recognized(chs)) <==> l in ChannelDict(chs)
    ensures l in ChannelDict(chs) ==> ChannelDict(Recognized(chs))[l] == ChannelDict(chs)[l]
  {
    if chs != [] {
      var pre, last := chs[..|chs| - 1], chs[|chs| - 1];
      RecognizedDict(pre, l);
      if last.sensorLabel in TableChannels {
        var r := Recognized(pre) + [last];
        assert r[..|r| - 1] == Recognized(pre);
      }
    }
  }

  lemma {:induction false} GroupsAgree(d1: map<string, Channel>, d2: map<string, Channel>, ls: seq<string>)
    requires forall l :: l in ls ==> (l in d1 <==> l in d2) && (l in d1 ==> d1[l] == d2[l])
    ensures Groups(d1, ls) == Groups(d2, ls)
  {
    if ls != [] {
      GroupsAgree(d1, d2, ls[..|ls| - 1]);
      assert ls[|ls| - 1] in ls;
    }
  }

  /**
    Channels whose label is outside the table's labels never reach the row:
    dropping them leaves the row unchanged.
  */
  lemma UnrecognizedIgnored(p: Point, info: seq<Value>, id: string)
    ensures RowOf(p.(channels := Recognized(p.channels)), info, id) == RowOf(p, info, id)
  {
    forall l | l in TableChannels
      ensures l in ChannelDict(Recognized(p.channels)) <==> l in ChannelDict(p.channels)
      ensures l in ChannelDict(p.channels) ==> ChannelDict(Recognized(p.channels))[l] == ChannelDict(p.channels)[l]
    {
      RecognizedDict(p.channels, l);
    }
    GroupsAgree(ChannelDict(Recognized(p.channels)), ChannelDict(p.channels), TableChannels);
  }

  /** One warning per key of the channel dictionary that has no table columns, in key order. */
  function UnrecognizedWarnings(keys: seq<string>, id: string): seq<Warning>
  {
    if keys == [] then []
    else if keys[|keys| - 1] in TableChannels then UnrecognizedWarnings(keys[..|keys| - 1], id)
    else UnrecognizedWarnings(keys[..|keys| - 1], id) + [UnrecognizedLabel(keys[|keys| - 1], id)]
  }

  lemma {:induction false} UnrecognizedWarningsExact(keys: seq<string>, id: string)
    requires forall a, b :: 0 <= a < b < |keys| ==> keys[a] != keys[b]
    ensures forall w :: w in UnrecognizedWarnings(keys, id) ==> w.UnrecognizedLabel? && w.id == id
    ensures forall l :: UnrecognizedLabel(l, id) in UnrecognizedWarnings(keys, id) <==> l in keys && l !in TableChannels
    ensures forall a, b :: 0 <= a < b < |UnrecognizedWarnings(keys, id)| ==>
      UnrecognizedWarnings(keys, id)[a] != UnrecognizedWarnings(keys, id)[b]
  {
    if keys != [] {
      var pre := keys[..|keys| - 1];
      UnrecognizedWarningsExact(pre, id);
      assert keys == pre + [keys[|keys| - 1]];
      assert keys[|keys| - 1] !in pre;
    }
  }

  /**
    A record warns once about every label it reported that has no table
    columns, and about nothing else: such labels are logged, not raised.
  */
  lemma UnrecognizedWarned(p: Point, id: string)
    ensures forall l :: UnrecognizedLabel(l, id) in UnrecognizedWarnings(ChannelKeys(p.channels), id) <==>
      HasLabel(p.channels, l) && l !in TableChannels
    ensures forall w :: w in UnrecognizedWarnings(ChannelKeys(p.channels), id) ==> w.UnrecognizedLabel? && w.id == id
    ensures forall a, b :: 0 <= a < b < |UnrecognizedWarnings(ChannelKeys(p.channels), id)| ==>
      UnrecognizedWarnings(ChannelKeys(p.channels), id)[a] != UnrecognizedWarnings(ChannelKeys(p.channels), id)[b]
  {
    ChannelKeysExact(p.channels);
    UnrecognizedWarningsExact(ChannelKeys(p.channels), id);
  }

  /** The fingerprints of the records, in order, for station uid. */
  function Ids(ps: seq<Point>, uid: Value): (ids: seq<string>)
    ensures |ids| == |ps|
  {
    if ps == [] then [] else Ids(ps[..|ps| - 1], uid) + [StringifyId(ps[|ps| - 1], uid)]
  }

  /** Entry k of the list is the fingerprint of record k, and a prefix of the records has the prefix of the list. */
  lemma {:induction false} IdsAt(ps: seq<Point>, uid: Value, k: nat)
    requires k < |ps|
    ensures Ids(ps, uid)[k] == StringifyId(ps[k], uid)
    ensures Ids(ps[..k], uid) == Ids(ps, uid)[..k]
  {
    if k < |ps| - 1 {
      IdsAt(ps[..|ps| - 1], uid, k);
      assert ps[..|ps| - 1][..k] == ps[..k];
    } else {
      assert ps[..|ps| - 1] == ps[..k];
    }
  }

  /** What `rowify`'s loop has produced after some records. */
  datatype Outcome = Outcome(rows: seq<Row>, gen: seq<string>, warnings: seq<Warning>)

  /**
    One pass of `rowify`'s loop, record p with fingerprint id, after prev: a
    record whose fingerprint is in neither the generated list nor the stored
    list queried is recorded in the generated list and yields its row; any
    other record yields a duplicate warning.
  */
  function Step(prev: Outcome, p: Point, id: string, info: seq<Value>, queried: seq<string>): Outcome
  {
    if id !in prev.gen && id !in queried then
      Outcome(prev.rows + [RowOf(p, info, id)], prev.gen + [id],
              prev.warnings + UnrecognizedWarnings(ChannelKeys(p.channels), id))
    else
      Outcome(prev.rows, prev.gen, prev.warnings + [DuplicateId(id)])
  }

  /**
    `rowify`'s loop over the records ps, whose fingerprints are ids, starting
    from the generated list gen and the stored list queried.
  */
  function Rowified(ps: seq<Point>, ids: seq<string>, info: seq<Value>, gen: seq<string>, queried: seq<string>): Outcome
    requires |ids| == |ps|
  {
    if ps == [] then Outcome([], gen, [])
    else
      var n := |ps| - 1;
      Step(Rowified(ps[..n], ids[..n], info, gen, queried), ps[n], ids[n], info, queried)
  }

  /** One more record: the loop takes one more step. */
  lemma RowifiedNext(ps: seq<Point>, ids: seq<string>, info: seq<Value>, gen: seq<string>, queried: seq<string>, k: nat)
    requires |ids| == |ps| && k < |ps|
    ensures Rowified(ps[..k + 1], ids[..k + 1], info, gen, queried) ==
      Step(Rowified(ps[..k], ids[..k], info, gen, queried), ps[k], ids[k], info, queried)
  {
    assert ps[..k + 1][..k] == ps[..k];
    assert ids[..k + 1][..k] == ids[..k];
  }

  /**
    After the loop, the generated list is the starting list followed by one new
    fingerprint per row, in row order; each row is 90 + |info| wide and ends with
    its fingerprint; no new fingerprint was stored or generated before, and no
    two are equal.
  */
  lemma {:induction false} RowifiedShape(ps: seq<Point>, ids: seq<string>, info: seq<Value>, gen: seq<string>, queried: seq<string>)
    requires |ids| == |ps|
    ensures var o := Rowified(ps, ids, info, gen, queried);
      && |o.gen| == |gen| + |o.rows|
      && o.gen[..|gen|] == gen
      && (forall k :: 0 <= k < |o.rows| ==> |o.rows[k]| == 90 + |info| && Tag(o.rows[k]) == Str(o.gen[|gen| + k]))
      && (forall k :: |gen| <= k < |o.gen| ==> o.gen[k] !in queried && o.gen[k] !in gen)
      && (forall a, b :: |gen| <= a < b < |o.gen| ==> o.gen[a] != o.gen[b])
  {
    if ps != [] {
      var n := |ps| - 1;
      RowifiedShape(ps[..n], ids[..n], info, gen, queried);
      var prev := Rowified(ps[..n], ids[..n], info, gen, queried);
      var id := ids[n];
      if id !in prev.gen && id !in queried {
        RowWidth(ps[n], info, id);
        var o := Rowified(ps, ids, info, gen, queried);
        assert o.gen == prev.gen + [id];
        assert id !in gen by {
          assert prev.gen == gen + prev.gen[|gen|..];
        }
      }
    }
  }

  /**
    A fingerprint is in the generated list after the loop exactly when it was
    there before, or it belongs to one of the records and is not stored.
  */
  lemma {:induction false} GeneratedIff(ps: seq<Point>, ids: seq<string>, info: seq<Value>, gen: seq<string>, queried: seq<string>, id: string)
    requires |ids| == |ps|
    ensures id in Rowified(ps, ids, info, gen, queried).gen <==> id in gen || (id !in queried && id in ids)
  {
    if ps != [] {
      var n := |ps| - 1;
      GeneratedIff(ps[..n], ids[..n], info, gen, queried, id);
      assert ids == ids[..n] + [ids[n]];
    }
  }

  /** Record k yields a row exactly when its fingerprint is neither generated before, nor stored, nor shared with an earlier record. */
  predicate FirstSeen(ids: seq<string>, k: nat, gen: seq<string>, queried: seq<string>)
    requires k < |ids|
  {
    ids[k] !in gen && ids[k] !in queried && ids[k] !in ids[..k]
  }

  /**
    Rows keep record order: processing record k appends its row, ending in its
    fingerprint, exactly when the record is the first with that fingerprint and
    the fingerprint is not already known; otherwise it appends nothing.
  */
  lemma RowifiedStep(ps: seq<Point>, ids: seq<string>, info: seq<Value>, gen: seq<string>, queried: seq<string>, k: nat)
    requires |ids| == |ps| && k < |ps|
    ensures Rowified(ps[..k + 1], ids[..k + 1], info, gen, queried).rows ==
      Rowified(ps[..k], ids[..k], info, gen, queried).rows
      + (if FirstSeen(ids, k, gen, queried) then [RowOf(ps[k], info, ids[k])] else [])
  {
    RowifiedNext(ps, ids, info, gen, queried, k);
    GeneratedIff(ps[..k], ids[..k], info, gen, queried, ids[k]);
  }

  /** Every record is accounted for: its fingerprint was stored, was generated before, or tags one of the new rows. */
  lemma EveryRecordAccounted(ps: seq<Point>, ids: seq<string>, info: seq<Value>, gen: seq<string>, queried: seq<string>, k: nat)
    requires |ids| == |ps| && k < |ps|
    ensures var o := Rowified(ps, ids, info, gen, queried);
      ids[k] in queried || ids[k] in gen || exists r :: 0 <= r < |o.rows| && Tag(o.rows[r]) == Str(ids[k])
  {
    var id := ids[k];
    var o := Rowified(ps, ids, info, gen, queried);
    GeneratedIff(ps, ids, info, gen, queried, id);
    RowifiedShape(ps, ids, info, gen, queried);
    if id !in queried && id !in gen {
      var g :| 0 <= g < |o.gen| && o.gen[g] == id;
      assert Tag(o.rows[g - |gen|]) == Str(id);
    }
  }

  /** When every record's fingerprint is already stored, the loop yields no row and generates nothing. */
  lemma {:induction false} AllStoredYieldsNothing(ps: seq<Point>, ids: seq<string>, info: seq<Value>, gen: seq<string>, queried: seq<string>)
    requires |ids| == |ps|
    requires forall k :: 0 <= k < |ids| ==> ids[k] in queried
    ensures Rowified(ps, ids, info, gen, queried).rows == []
    ensures Rowified(ps, ids, info, gen, queried).gen == gen
  {
    if ps != [] {
      var n := |ps| - 1;
      AllStoredYieldsNothing(ps[..n], ids[..n], info, gen, queried);
    }
  }
}
