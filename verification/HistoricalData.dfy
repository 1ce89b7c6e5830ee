/** Daily market records interpolated between anchors, and their insertion into a table keyed by date. */
module HistoricalData {
  // An anchor; `day` counts days from a fixed date.
  datatype Anchor = Anchor(day: int, price: real, hashrate: real, volume: real)

  datatype Record = Record(day: int, price: real, hashrate: real, volume: real, difficulty: real, marketCap: real)

  // The random factors, seeded by the date alone, and rounding to a number of digits.
  datatype Noise = Noise(price: int -> real, hashrate: int -> real, volume: int -> real, round: (real, nat) -> real)

  /** `day / days if days > 0 else 0`. */
  function Progress(day: nat, days: int): real {
    if days > 0 then day as real / days as real else 0.0
  }

  function Scaled(difference: real, progress: real): real {
    difference * progress
  }

  function Interpolated(start: real, end: real, progress: real): real {
    start + Scaled(end - start, progress)
  }

  function Finished(day: int, price: real, hashrate: real, volume: real, noise: Noise): Record {
    var p := price * noise.price(day);
    var h := hashrate * noise.hashrate(day);
    var v := volume * noise.volume(day);
    Record(day, noise.round(p, 2), noise.round(h, 2), noise.round(v, 0),
           noise.round(h * 130000000000000.0, 0), noise.round(p * 19400000.0, 0))
  }

  function RecordAt(a: Anchor, b: Anchor, day: nat, noise: Noise): Record {
    var progress := Progress(day, b.day - a.day);
    Finished(a.day + day, Interpolated(a.price, b.price, progress), Interpolated(a.hashrate, b.hashrate, progress),
             Interpolated(a.volume, b.volume, progress), noise)
  }

  /** The records of one segment, both ends included. */
  function Segment(a: Anchor, b: Anchor, noise: Noise): seq<Record> {
    if b.day < a.day then [] else seq(b.day - a.day + 1, day requires day >= 0 => RecordAt(a, b, day, noise))
  }

  function Records(anchors: seq<Anchor>, noise: Noise): seq<Record> {
    var n := |anchors| - 1;
    if n < 1 then [] else Records(anchors[..n], noise) + Segment(anchors[n - 1], anchors[n], noise)
  }

  /** The inner loop: one record for each day of a segment. */
  method GenerateSegment(a: Anchor, b: Anchor, noise: Noise) returns (points: seq<Record>)
    ensures points == Segment(a, b, noise)
  {
    points := [];
    var days := b.day - a.day;
    if days < 0 { return; }
    for day := 0 to days + 1
      invariant |points| == day && forall d :: 0 <= d < day ==> points[d] == RecordAt(a, b, d, noise)
    {
      var progress := if days > 0 then day as real / days as real else 0.0;
      var price := Interpolated(a.price, b.price, progress);
      var hashrate := Interpolated(a.hashrate, b.hashrate, progress);
      var volume := Interpolated(a.volume, b.volume, progress);
      points := points + [Finished(a.day + day, price, hashrate, volume, noise)];
    }
  }

  method GenerateHistoricalData(anchors: seq<Anchor>, noise: Noise) returns (points: seq<Record>)
    ensures points == Records(anchors, noise)
  {
    points := [];
    if |anchors| == 0 { return; }
    for i := 0 to |anchors| - 1
      invariant points == Records(anchors[..i + 1], noise)
    {
      var segment := GenerateSegment(anchors[i], anchors[i + 1], noise);
      points := points + segment;
      assert anchors[..i + 2][..i + 1] == anchors[..i + 1];
    }
    assert anchors[..|anchors|] == anchors;
  }

  // ---------------------------------------------------------------- what is generated

  ghost predicate Increasing(anchors: seq<Anchor>) {
    forall i, j :: 0 <= i < j < |anchors| ==> anchors[i].day < anchors[j].day
  }

  /** As many records as days between the first and the last anchor, plus one for each segment. */
  lemma {:induction false} RecordCount(anchors: seq<Anchor>, noise: Noise)
    requires Increasing(anchors) && |anchors| > 0
    ensures |Records(anchors, noise)| == anchors[|anchors| - 1].day - anchors[0].day + |anchors| - 1
  {
    var n := |anchors| - 1;
    if n >= 1 {
      RecordCount(anchors[..n], noise);
    }
  }

  // The ten anchors of 2022 and 2023; day 0 is 1 January 2022.
  const HISTORICAL_POINTS := [
    Anchor(0, 47000.0, 800.0, 15000000000.0),
    Anchor(90, 45000.0, 850.0, 12000000000.0),
    Anchor(181, 20000.0, 900.0, 8000000000.0),
    Anchor(304, 21000.0, 950.0, 10000000000.0),
    Anchor(364, 16500.0, 1000.0, 7000000000.0),
    Anchor(365, 16625.0, 300.0, 8000000000.0),
    Anchor(438, 24500.0, 350.0, 12000000000.0),
    Anchor(530, 26000.0, 400.0, 15000000000.0),
    Anchor(667, 35000.0, 450.0, 18000000000.0),
    Anchor(729, 42500.0, 500.0, 22000000000.0)]

  /** The built-in list gives 738 records for its 730 days: the eight interior dates come twice. */
  lemma BuiltInRecords(noise: Noise)
    ensures Increasing(HISTORICAL_POINTS) && |Records(HISTORICAL_POINTS, noise)| == 738
  {
    RecordCount(HISTORICAL_POINTS, noise);
  }

  lemma ProgressIsFraction(day: nat, days: int)
    requires 0 <= day <= days
    ensures 0.0 <= Progress(day, days) <= 1.0
  {
    if days > 0 {
      assert day as real <= days as real;
      assert 0.0 <= day as real / days as real;
      assert day as real / days as real <= 1.0;
    }
  }

  /** Before noise, a value lies between the values of its segment's ends. */
  lemma InterpolationStaysBetween(start: real, end: real, day: nat, days: int)
    requires 0 <= day <= days
    ensures var v := Interpolated(start, end, Progress(day, days));
            if start <= end then start <= v <= end else end <= v <= start
  {
    ProgressIsFraction(day, days);
    Part(end - start, Progress(day, days));
  }

  /** A fraction of a difference lies between nothing and the difference. */
  lemma Part(d: real, p: real)
    requires 0.0 <= p <= 1.0
    ensures if d >= 0.0 then 0.0 <= Scaled(d, p) <= d else d <= Scaled(d, p) <= 0.0
  {
    if d >= 0.0 {
      Scale(d, p);
    } else {
      Scale(-d, p);
      Negate(d, p);
    }
  }

  lemma Negate(d: real, p: real)
    ensures (-d) * p == -(d * p)
  {
  }

  lemma Scale(d: real, p: real)
    requires d >= 0.0 && 0.0 <= p <= 1.0
    ensures 0.0 <= d * p <= d
  {
  }

  /** The record of an anchor's own date, without any interpolation. */
  function AnchorRecord(a: Anchor, noise: Noise): Record {
    Finished(a.day, a.price, a.hashrate, a.volume, noise)
  }

  lemma ProgressTimesDays(difference: real, day: nat, days: int)
    requires days > 0
    ensures Scaled(difference, Progress(day, days)) * days as real == difference * day as real
  {
    assert day as real / days as real * days as real == day as real;
  }

  /** Inside a segment a value moves in equal steps: after `day` of `days` days, that part of the difference. */
  lemma EqualSteps(start: real, end: real, day: nat, days: int)
    requires days > 0
    ensures (Interpolated(start, end, Progress(day, days)) - start) * days as real == (end - start) * day as real
  {
    ProgressTimesDays(end - start, day, days);
  }

  // The value before noise, wherever it is given: on the straight line between the ends.
  ghost predicate OnLine(v: real, start: real, end: real, day: nat, days: int) {
    (v - start) * days as real == (end - start) * day as real
  }

  /**
   What a record makes of its values: each times its own factor for the date, and rounded; difficulty
   and market capitalisation come from the unrounded products.
   */
  ghost predicate Recorded(r: Record, date: int, price: real, hashrate: real, volume: real, noise: Noise) {
    && r.day == date
    && r.price == noise.round(price * noise.price(date), 2)
    && r.hashrate == noise.round(hashrate * noise.hashrate(date), 2)
    && r.volume == noise.round(volume * noise.volume(date), 0)
    && r.difficulty == noise.round(hashrate * noise.hashrate(date) * 130000000000000.0, 0)
    && r.marketCap == noise.round(price * noise.price(date) * 19400000.0, 0)
  }

  lemma FinishedIsRecorded(date: int, price: real, hashrate: real, volume: real, noise: Noise)
    ensures Recorded(Finished(date, price, hashrate, volume, noise), date, price, hashrate, volume, noise)
  {
  }

  /** The record of each day of a segment is made of the three values on the line. */
  lemma RecordIsOnLine(a: Anchor, b: Anchor, day: nat, noise: Noise) returns (price: real, hashrate: real, volume: real)
    requires day <= b.day - a.day && a.day < b.day
    ensures OnLine(price, a.price, b.price, day, b.day - a.day)
    ensures OnLine(hashrate, a.hashrate, b.hashrate, day, b.day - a.day)
    ensures OnLine(volume, a.volume, b.volume, day, b.day - a.day)
    ensures |Segment(a, b, noise)| == b.day - a.day + 1
    ensures Recorded(Segment(a, b, noise)[day], a.day + day, price, hashrate, volume, noise)
  {
    var days := b.day - a.day;
    var progress := Progress(day, days);
    price := Interpolated(a.price, b.price, progress);
    hashrate := Interpolated(a.hashrate, b.hashrate, progress);
    volume := Interpolated(a.volume, b.volume, progress);
    EqualSteps(a.price, b.price, day, days);
    EqualSteps(a.hashrate, b.hashrate, day, days);
    EqualSteps(a.volume, b.volume, day, days);
    assert Segment(a, b, noise)[day] == Finished(a.day + day, price, hashrate, volume, noise);
    FinishedIsRecorded(a.day + day, price, hashrate, volume, noise);
  }

  lemma InterpolatedEnds(start: real, end: real)
    ensures Interpolated(start, end, 0.0) == start && Interpolated(start, end, 1.0) == end
  {
  }

  lemma ProgressEnds(days: int)
    requires days > 0
    ensures Progress(0, days) == 0.0 && Progress(days, days) == 1.0
  {
  }

  /** Both ends of a segment are the anchors themselves. */
  lemma SegmentEnds(a: Anchor, b: Anchor, noise: Noise)
    requires a.day < b.day
    ensures RecordAt(a, b, 0, noise) == AnchorRecord(a, noise)
    ensures RecordAt(a, b, b.day - a.day, noise) == AnchorRecord(b, noise)
  {
    ProgressEnds(b.day - a.day);
    InterpolatedEnds(a.price, b.price);
    InterpolatedEnds(a.hashrate, b.hashrate);
    InterpolatedEnds(a.volume, b.volume);
  }

  lemma {:induction false} RecordDays(anchors: seq<Anchor>, noise: Noise, r: Record)
    requires Increasing(anchors) && r in Records(anchors, noise)
    ensures |anchors| >= 2 && anchors[0].day <= r.day <= anchors[|anchors| - 1].day
    ensures r.day == anchors[|anchors| - 1].day ==> r == AnchorRecord(anchors[|anchors| - 1], noise)
  {
    var n := |anchors| - 1;
    var a, b := anchors[n - 1], anchors[n];
    if r in Records(anchors[..n], noise) {
      RecordDays(anchors[..n], noise, r);
    } else {
      InSegment(a, b, noise, r);
      SegmentEnds(a, b, noise);
      assert r.day <= b.day;
    }
  }

  lemma InSegment(a: Anchor, b: Anchor, noise: Noise, r: Record)
    requires r in Segment(a, b, noise)
    ensures r.day >= a.day && r == RecordAt(a, b, r.day - a.day, noise)
  {
    var d :| 0 <= d < |Segment(a, b, noise)| && Segment(a, b, noise)[d] == r;
    assert r == RecordAt(a, b, d, noise);
  }

  /** Where a record of the earlier segments and one of the next segment share a date, it is the anchor's. */
  lemma SeamRecord(anchors: seq<Anchor>, b: Anchor, noise: Noise, r: Record, s: Record)
    requires Increasing(anchors) && anchors != [] && anchors[|anchors| - 1].day < b.day
    requires r in Records(anchors, noise) && s in Segment(anchors[|anchors| - 1], b, noise) && r.day == s.day
    ensures r == s
  {
    var a := anchors[|anchors| - 1];
    RecordDays(anchors, noise, r);
    InSegment(a, b, noise, s);
    SegmentEnds(a, b, noise);
  }

  /** Two records of one date are identical: the noise depends on the date alone. */
  lemma {:induction false} OneRecordPerDay(anchors: seq<Anchor>, noise: Noise, r: Record, s: Record)
    requires Increasing(anchors) && r in Records(anchors, noise) && s in Records(anchors, noise) && r.day == s.day
    ensures r == s
  {
    var n := |anchors| - 1;
    var front, a, b := anchors[..n], anchors[n - 1], anchors[n];
    if r in Records(front, noise) && s in Records(front, noise) {
      OneRecordPerDay(front, noise, r, s);
    } else if r in Records(front, noise) {
      SeamRecord(front, b, noise, r, s);
    } else if s in Records(front, noise) {
      SeamRecord(front, b, noise, s, r);
    } else {
      InSegment(a, b, noise, r);
      InSegment(a, b, noise, s);
    }
  }

  /** No date between the first and the last anchor is left out. */
  lemma {:induction false} EveryDayHasARecord(anchors: seq<Anchor>, noise: Noise, day: int)
    requires Increasing(anchors) && |anchors| >= 2 && anchors[0].day <= day <= anchors[|anchors| - 1].day
    ensures exists r :: r in Records(anchors, noise) && r.day == day
  {
    var n := |anchors| - 1;
    var a, b := anchors[n - 1], anchors[n];
    if day < a.day {
      EveryDayHasARecord(anchors[..n], noise, day);
      var r :| r in Records(anchors[..n], noise) && r.day == day;
      assert r in Records(anchors, noise);
    } else {
      var r := Segment(a, b, noise)[day - a.day];
      assert r in Segment(a, b, noise) && r.day == day;
    }
  }

  // ---------------------------------------------------------------- insertion

  type Table = map<int, Record>

  /** `ON CONFLICT (recorded_at) DO NOTHING`, point by point. */
  function Inserted(table: Table, points: seq<Record>): Table {
    if points == [] then table else
      var t := Inserted(table, points[..|points| - 1]);
      var p := points[|points| - 1];
      if p.day in t then t else t[p.day := p]
  }

  /** The batch is committed as a whole or not at all. */
  method BatchInsert(table: Table, points: seq<Record>, commits: bool) returns (table': Table)
    ensures table' == if commits then Inserted(table, points) else table
  {
    table' := table;
    for i := 0 to |points|
      invariant table' == Inserted(table, points[..i])
    {
      assert points[..i + 1][..i] == points[..i];
      if points[i].day !in table' {
        table' := table'[points[i].day := points[i]];
      }
    }
    assert points[..|points|] == points;
    if !commits { table' := table; }
  }

  lemma {:induction false} InsertedRows(table: Table, points: seq<Record>)
    ensures forall d :: d in table ==> d in Inserted(table, points) && Inserted(table, points)[d] == table[d]
    ensures forall d :: d in Inserted(table, points) && d !in table ==>
              Inserted(table, points)[d] in points && Inserted(table, points)[d].day == d
    ensures forall p :: p in points ==> p.day in Inserted(table, points)
  {
    if points != [] {
      var n := |points| - 1;
      InsertedRows(table, points[..n]);
      assert points == points[..n] + [points[n]];
    }
  }

  /**
   Inserting what was generated leaves old rows alone and covers each date of the range exactly
   once: a date without a row gets the one record generated for it, and no other date gets any.
   */
  lemma EachDayOnce(anchors: seq<Anchor>, noise: Noise, table: Table)
    requires Increasing(anchors) && |anchors| >= 2
    ensures var t := Inserted(table, Records(anchors, noise));
            && (forall d :: d in table ==> d in t && t[d] == table[d])
            && (forall d :: d in t <==> d in table || anchors[0].day <= d <= anchors[|anchors| - 1].day)
            && (forall d, r :: d in t && d !in table && r in Records(anchors, noise) && r.day == d ==> t[d] == r)
  {
    var points := Records(anchors, noise);
    var t := Inserted(table, points);
    InsertedRows(table, points);
    forall d ensures d in t <==> d in table || anchors[0].day <= d <= anchors[|anchors| - 1].day {
      if d in t && d !in table {
        RecordDays(anchors, noise, t[d]);
      } else if d !in table && anchors[0].day <= d <= anchors[|anchors| - 1].day {
        EveryDayHasARecord(anchors, noise, d);
      }
    }
    forall d, r | d in t && d !in table && r in points && r.day == d ensures t[d] == r {
      OneRecordPerDay(anchors, noise, t[d], r);
    }
  }
}
