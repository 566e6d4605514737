/**
  The measurement records the sensor API returns, and the identity string
  (`stringifyID`) both ingestion scripts derive from one record.
*/
module Fingerprint {
  import opened Python

  /**
    A timestamp of a record: the ISO text the API sent, which is copied into the
    row as it is, and the epoch seconds that `strftime('%s')` gives for it. The
    conversion depends on the platform and its time zone, so the model takes its
    result as part of the record rather than computing it.
  */
  datatype Timestamp = Timestamp(iso: string, epoch: int)

  /** One sensor reading of a record (one element of its "Channels"). */
  datatype Channel = Channel(
    sensorLabel: string,
    preScaled: Value,
    slope: Value,
    offset: Value,
    scaled: Value,
    unitName: Value,
    status: Value)

  /** One measurement record: begin and end timestamps, position, and the channels in API order. */
  datatype Point = Point(
    begin: Timestamp,
    end: Timestamp,
    latitude: Value,
    longitude: Value,
    altitude: Value,
    channels: seq<Channel>)

  /** str(ch["Scaled"]) for every channel, in the order the API returned them. */
  function ScaledTexts(chs: seq<Channel>): (r: seq<string>)
    ensures |r| == |chs|
    ensures forall k :: 0 <= k < |chs| ==> r[k] == Show(chs[k].scaled)
  {
    if chs == [] then [] else [Show(chs[0].scaled)] + ScaledTexts(chs[1..])
  }

  /**
    The fingerprint of a record for the station uid:
    "{uid}-{b}-{e}_" followed by the Scaled values joined with "-".
    Sensor labels, positions and the other channel fields do not take part.
  */
  function StringifyId(p: Point, uid: Value): string
  {
    Show(uid) + "-" + IntText(p.begin.epoch) + "-" + IntText(p.end.epoch) + "_"
      + Join('-', ScaledTexts(p.channels))
  }

  /** The text of an int as a fingerprint sees it: non-empty, '-' only in front, no '_'. */
  predicate SignedDigits(x: string)
  {
    |x| > 0 && '-' !in x[1..] && '_' !in x
  }

  /**
    A fingerprint-shaped text u-x-y_v, with x and y int texts, can be cut back
    into its parts.
  */
  lemma DecodeParts(u: string, x: string, y: string, v: string, x2: string, y2: string, v2: string)
    requires SignedDigits(x) && SignedDigits(y) && SignedDigits(x2) && SignedDigits(y2)
    requires u + "-" + x + "-" + y + "_" + v == u + "-" + x2 + "-" + y2 + "_" + v2
    ensures x == x2 && y == y2 && v == v2
  {
    var s := u + "-" + x + "-" + y + "_" + v;
    var rest, rest2 := x + "-" + (y + "_" + v), x2 + "-" + (y2 + "_" + v2);
    assert s == (u + "-") + rest;
    assert s == (u + "-") + rest2;
    assert rest == s[|u| + 1..] == rest2;
    assert x[0] == rest[0] == rest2[0] == x2[0];
    var k := if x[0] == '-' then 1 else 0;
    assert rest[k..] == x[k..] + "-" + (y + "_" + v);
    assert rest2[k..] == x2[k..] + "-" + (y2 + "_" + v2);
    assert x[..k] == x2[..k];
    SplitAtSeparator('-', x[k..], y + "_" + v, x2[k..], y2 + "_" + v2);
    assert x == x[..k] + x[k..];
    assert x2 == x2[..k] + x2[k..];
    SplitAtSeparator('_', y, v, y2, v2);
  }

  /**
    For one station, equal fingerprints mean equal begin and end epochs and equal
    joined Scaled texts: the string is a faithful key for exactly those parts.
  */
  lemma FingerprintDecodes(p: Point, q: Point, uid: Value)
    requires StringifyId(p, uid) == StringifyId(q, uid)
    ensures p.begin.epoch == q.begin.epoch && p.end.epoch == q.end.epoch
    ensures Join('-', ScaledTexts(p.channels)) == Join('-', ScaledTexts(q.channels))
  {
    var b, e, b2, e2 := p.begin.epoch, p.end.epoch, q.begin.epoch, q.end.epoch;
    IntTextShape(b);
    IntTextShape(e);
    IntTextShape(b2);
    IntTextShape(e2);
    DecodeParts(Show(uid), IntText(b), IntText(e), Join('-', ScaledTexts(p.channels)),
                IntText(b2), IntText(e2), Join('-', ScaledTexts(q.channels)));
    IntTextInjective(b, b2);
    IntTextInjective(e, e2);
  }

  /**
    Two records of one station whose Scaled texts are non-empty and free of
    '-' have the same fingerprint only when their epochs and their whole Scaled
    sequences agree.
  */
  lemma FingerprintIdentifiesValues(p: Point, q: Point, uid: Value)
    requires forall k :: 0 <= k < |p.channels| ==> Show(p.channels[k].scaled) != [] && '-' !in Show(p.channels[k].scaled)
    requires forall k :: 0 <= k < |q.channels| ==> Show(q.channels[k].scaled) != [] && '-' !in Show(q.channels[k].scaled)
    requires StringifyId(p, uid) == StringifyId(q, uid)
    ensures p.begin.epoch == q.begin.epoch && p.end.epoch == q.end.epoch
    ensures ScaledTexts(p.channels) == ScaledTexts(q.channels)
  {
    FingerprintDecodes(p, q, uid);
    JoinInjective('-', ScaledTexts(p.channels), ScaledTexts(q.channels));
  }

  /** Changing the begin or the end epoch changes the fingerprint. */
  lemma EpochChangeChangesFingerprint(p: Point, q: Point, uid: Value)
    requires p.begin.epoch != q.begin.epoch || p.end.epoch != q.end.epoch
    ensures StringifyId(p, uid) != StringifyId(q, uid)
  {
    if StringifyId(p, uid) == StringifyId(q, uid) {
      FingerprintDecodes(p, q, uid);
    }
  }

  /**
    Changing the Scaled text of exactly one channel, channel k, changes the
    fingerprint, whatever characters the texts hold.
  */
  lemma ValueChangeChangesFingerprint(p: Point, q: Point, uid: Value, k: nat)
    requires |p.channels| == |q.channels| && k < |p.channels|
    requires Show(p.channels[k].scaled) != Show(q.channels[k].scaled)
    requires forall j :: 0 <= j < |p.channels| && j != k ==> Show(p.channels[j].scaled) == Show(q.channels[j].scaled)
    ensures StringifyId(p, uid) != StringifyId(q, uid)
  {
    var xs, ys := ScaledTexts(p.channels), ScaledTexts(q.channels);
    JoinOneChanged('-', xs, ys, k);
    if StringifyId(p, uid) == StringifyId(q, uid) {
      FingerprintDecodes(p, q, uid);
    }
  }
}
