/**
 * The sensor pipeline shared by the three OSM-to-MATSim converters: reading
 * the sensor CSV, the greedy nearest-candidate search that maps sensors to
 * links (or nodes), and the 24-hour count records written for each mapped
 * sensor. The converters differ only in how a distance is computed, whether
 * a candidate may be used twice and whether there is a distance cap; those
 * are parameters here.
 */
module SensorMatching {
  import opened Wrappers
  import opened Text
  import Decimals

  /** A MATSim Coord: x is the longitude (or easting), y the latitude (or northing). */
  datatype Coord = Coord(x: real, y: real)

  /** Double.MAX_VALUE, the initial best distance of every search. */
  const MaxDouble: real := 1.7976931348623157e308

  // ---------------------------------------------------------------------------
  // Reading the sensor CSV
  // ---------------------------------------------------------------------------

  /** Double.parseDouble on finite decimal numerals, with or without an exponent. */
  function ParseDouble(s: string): (r: Result<real>)
    ensures r.Err? ==> r.error == NumberFormat(s)
  {
    match Decimals.JavaParse(s)
    case Ok(d) => Ok(Decimals.Value(d))
    case Err(_) => Err(NumberFormat(s))
  }

  /** A coordinate or flow Java printed, "52.5" or "1.25E7" alike, reads back as its value. */
  lemma ParseDoublePrinted(d: Decimals.Decimal)
    requires |d.fraction| >= 1
    ensures ParseDouble(Decimals.Print(d)) == Ok(Decimals.Value(d))
  {
    Decimals.ParsePrint(d);
  }

  /** Math.round: the nearest integer, halves rounded up; the int cast after it is not modelled. */
  function Round(x: real): (r: int)
    ensures r as real - 0.5 <= x < r as real + 0.5
  {
    (x + 0.5).Floor
  }

  /** A parsed data row: sensor id, latitude, longitude and 24 rounded hourly flows. */
  datatype SensorRow = SensorRow(id: string, lat: real, lon: real, flows: seq<int>)

  /** The rounded flow of hour h, read from field h + 3: a missing field fails before a malformed one. */
  function FieldFlow(parts: seq<string>, h: nat): (r: Result<int>)
    ensures r.Ok? ==> h + 3 < |parts|
  {
    match At(parts, h + 3)
    case Err(e) => Err(e)
    case Ok(field) =>
      match ParseDouble(field)
      case Err(e) => Err(e)
      case Ok(v) => Ok(Round(v))
  }

  /** The values of a sequence of results, or the first failure met from the front. */
  function Collect<T>(rs: seq<Result<T>>): (r: Result<seq<T>>)
    ensures r.Ok? ==> |r.value| == |rs|
  {
    if rs == [] then Ok([])
    else
      match rs[0]
      case Err(e) => Err(e)
      case Ok(x) =>
        match Collect(rs[1..])
        case Err(e) => Err(e)
        case Ok(rest) => Ok([x] + rest)
  }

  /** Collect succeeds exactly when every result does, and then lists their values in order. */
  lemma {:induction false} CollectValues<T>(rs: seq<Result<T>>)
    ensures Collect(rs).Ok? <==> forall j :: 0 <= j < |rs| ==> rs[j].Ok?
    ensures Collect(rs).Ok? ==> forall j :: 0 <= j < |rs| ==> rs[j] == Ok(Collect(rs).value[j])
  {
    if rs != [] {
      CollectValues(rs[1..]);
      assert forall j :: 1 <= j < |rs| ==> rs[j] == rs[1..][j - 1];
    }
  }

  /** When the results before position n succeed, Collect fails with the failure at n. */
  lemma {:induction false} CollectFirstError<T>(rs: seq<Result<T>>, n: nat)
    requires n < |rs| && rs[n].Err?
    requires forall j :: 0 <= j < n ==> rs[j].Ok?
    ensures Collect(rs) == Err(rs[n].error)
  {
    if n > 0 {
      CollectFirstError(rs[1..], n - 1);
    }
  }

  /** The 24 hourly flows of a row, each still a result. */
  function FieldFlows(parts: seq<string>): (rs: seq<Result<int>>)
    ensures |rs| == 24 && forall h :: 0 <= h < 24 ==> rs[h] == FieldFlow(parts, h)
  {
    seq(24, h requires 0 <= h < 24 => FieldFlow(parts, h))
  }

  /**
   * The loop over hours 0..23 reading fields 3..26: the earliest hour to fail
   * decides the error; otherwise the 24 rounded flows, each from its own field.
   */
  function Flows(parts: seq<string>): (r: Result<seq<int>>)
    ensures r.Ok? ==> |r.value| == 24 && |parts| >= 27
    ensures r.Ok? ==> forall h :: 0 <= h < 24 ==> FieldFlow(parts, h) == Ok(r.value[h])
  {
    var rs := FieldFlows(parts);
    CollectValues(rs);
    assert Collect(rs).Ok? ==> rs[23].Ok? && FieldFlow(parts, 23).Ok?;
    Collect(rs)
  }

  /**
   * One data line: split on ",", skipped (None) when it has fewer than 26
   * fields, otherwise id, latitude, longitude and fields 3..26 as flows.
   */
  function ParseRow(line: string): (r: Result<Option<SensorRow>>)
    ensures |JavaSplit(line, ",")| < 26 ==> r == Ok(None)
    ensures r.Ok? && r.value.Some? ==>
      var parts := JavaSplit(line, ",");
      && |parts| >= 27 && r.value.value.id == parts[0] && |r.value.value.flows| == 24
      && ParseDouble(parts[1]) == Ok(r.value.value.lat) && ParseDouble(parts[2]) == Ok(r.value.value.lon)
  {
    var parts := JavaSplit(line, ",");
    if |parts| < 26 then Ok(None)
    else
      match ParseDouble(parts[1])
      case Err(e) => Err(e)
      case Ok(lat) =>
        match ParseDouble(parts[2])
        case Err(e) => Err(e)
        case Ok(lon) =>
          match Flows(parts)
          case Err(e) => Err(e)
          case Ok(flows) => Ok(Some(SensorRow(parts[0], lat, lon, flows)))
  }

  /** A row that passes the 26-field guard but has exactly 26 fields fails on field 26, once the earlier fields parse. */
  lemma {:induction false} TwentySixFieldsFail(line: string)
    requires |JavaSplit(line, ",")| == 26
    requires forall i :: 1 <= i < 26 ==> ParseDouble(JavaSplit(line, ",")[i]).Ok?
    ensures ParseRow(line) == Err(ArrayIndexOutOfBounds(26))
  {
    var parts := JavaSplit(line, ",");
    var rs := FieldFlows(parts);
    forall h | 0 <= h < 23 ensures rs[h].Ok? {
      assert ParseDouble(parts[h + 3]).Ok?;
    }
    CollectFirstError(rs, 23);
  }

  /** The two maps readSensorData fills: sensor id to [lat, lon], and sensor id to 24 flows. */
  datatype SensorData = SensorData(coords: map<string, seq<real>>, flows: map<string, seq<int>>)

  /** One row applied to the maps: skipped, stored under its id (overwriting), or its error. */
  function AddRow(d: SensorData, line: string): (r: Result<SensorData>)
    ensures r.Err? <==> ParseRow(line).Err?
    ensures r.Ok? && ParseRow(line).value.None? ==> r.value == d
  {
    match ParseRow(line)
    case Err(e) => Err(e)
    case Ok(None) => Ok(d)
    case Ok(Some(row)) => Ok(SensorData(d.coords[row.id := [row.lat, row.lon]], d.flows[row.id := row.flows]))
  }

  /** The maps after the given data lines (the header already skipped); a later row overwrites an earlier one. */
  function ReadRows(rows: seq<string>): (r: Result<SensorData>)
    ensures r.Ok? ==> r.value.coords.Keys == r.value.flows.Keys
    ensures r.Ok? ==> forall s :: s in r.value.coords ==> |r.value.coords[s]| == 2 && |r.value.flows[s]| == 24
    decreases |rows|
  {
    if rows == [] then Ok(SensorData(map[], map[]))
    else
      match ReadRows(rows[..|rows| - 1])
      case Err(e) => Err(e)
      case Ok(d) => AddRow(d, rows[|rows| - 1])
  }

  /** readSensorData: the first line is a header, and an empty file gives empty maps. */
  function ReadSensorData(lines: seq<string>): Result<SensorData> {
    if lines == [] then Ok(SensorData(map[], map[])) else ReadRows(lines[1..])
  }

  /** The line is a data row for sensor s. */
  predicate RowFor(line: string, s: string) {
    ParseRow(line).Ok? && ParseRow(line).value.Some? && ParseRow(line).value.value.id == s
  }

  /** The maps hold exactly this row's coordinates and flows under its id. */
  predicate Holds(d: SensorData, row: SensorRow) {
    && row.id in d.coords && d.coords[row.id] == [row.lat, row.lon]
    && row.id in d.flows && d.flows[row.id] == row.flows
  }

  /** Adding a row for another sensor leaves sensor s as it was. */
  lemma AddRowOther(d: SensorData, line: string, s: string)
    requires AddRow(d, line).Ok? && !RowFor(line, s)
    ensures s in AddRow(d, line).value.coords <==> s in d.coords
    ensures forall row: SensorRow :: row.id == s ==> (Holds(AddRow(d, line).value, row) <==> Holds(d, row))
  {
  }

  /** Adding a row for sensor s stores exactly that row. */
  lemma AddRowSelf(d: SensorData, line: string, s: string)
    requires RowFor(line, s)
    ensures AddRow(d, line).Ok? && Holds(AddRow(d, line).value, ParseRow(line).value.value)
  {
  }

  /** A property that fails on the last element and on the rest of the prefix after i fails everywhere after i. */
  lemma NoneAfter(rows: seq<string>, init: seq<string>, i: nat, p: string -> bool)
    requires i < |rows| - 1 && init == rows[..|rows| - 1]
    requires forall j :: i < j < |init| ==> !p(init[j])
    requires !p(rows[|rows| - 1])
    ensures forall j :: i < j < |rows| ==> !p(rows[j])
  {
    forall j | i < j < |init| ensures !p(rows[j]) {
      assert init[j] == rows[j];
    }
  }

  /**
   * Every sensor in the result comes from its last row: that row's
   * coordinates and flows are the stored ones, and no later row has its id.
   */
  lemma {:induction false} LastRowWins(rows: seq<string>, s: string)
    requires ReadRows(rows).Ok? && s in ReadRows(rows).value.coords
    ensures exists i ::
      && 0 <= i < |rows| && RowFor(rows[i], s) && Holds(ReadRows(rows).value, ParseRow(rows[i]).value.value)
      && (forall j :: i < j < |rows| ==> !RowFor(rows[j], s))
    decreases |rows|
  {
    var last := |rows| - 1;
    var init := rows[..last];
    var d := ReadRows(init).value;
    assert ReadRows(rows) == AddRow(d, rows[last]);
    if RowFor(rows[last], s) {
      AddRowSelf(d, rows[last], s);
    } else {
      AddRowOther(d, rows[last], s);
      LastRowWins(init, s);
      var i :| 0 <= i < |init| && RowFor(init[i], s) && Holds(d, ParseRow(init[i]).value.value)
        && (forall j :: i < j < |init| ==> !RowFor(init[j], s));
      var row := ParseRow(init[i]).value.value;
      assert rows[i] == init[i];
      assert Holds(ReadRows(rows).value, row);
      NoneAfter(rows, init, i, line => RowFor(line, s));
      assert RowFor(rows[i], s) && Holds(ReadRows(rows).value, ParseRow(rows[i]).value.value);
    }
  }

  /** The reading loop over the lines after the header, filling the two maps in place. */
  method ReadSensorLines(lines: seq<string>) returns (r: Result<SensorData>)
    ensures r == ReadSensorData(lines)
  {
    if lines == [] {
      return Ok(SensorData(map[], map[]));
    }
    var rows := lines[1..];
    var coords: map<string, seq<real>> := map[];
    var flows: map<string, seq<int>> := map[];
    var i := 0;
    while i < |rows|
      invariant 0 <= i <= |rows|
      invariant ReadRows(rows[..i]) == Ok(SensorData(coords, flows))
    {
      assert rows[..i + 1][..i] == rows[..i];
      var next := AddRow(SensorData(coords, flows), rows[i]);
      if next.Err? {
        ReadRowsErrSticks(rows, i + 1, next.error);
        return Err(next.error);
      }
      coords, flows := next.value.coords, next.value.flows;
      i := i + 1;
    }
    assert rows[..|rows|] == rows;
    r := Ok(SensorData(coords, flows));
  }

  /** Once a row fails, the whole read fails with that row's error. */
  lemma {:induction false} ReadRowsErrSticks(rows: seq<string>, n: nat, e: Error)
    requires n <= |rows| && ReadRows(rows[..n]) == Err(e)
    ensures ReadRows(rows) == Err(e)
    decreases |rows| - n
  {
    if n < |rows| {
      assert rows[..n + 1][..n] == rows[..n];
      ReadRowsErrSticks(rows, n + 1, e);
    } else {
      assert rows[..n] == rows;
    }
  }

  // ---------------------------------------------------------------------------
  // The nearest-candidate search
  // ---------------------------------------------------------------------------

  /** A candidate can be chosen: not used yet, under the cap when there is one, and under Double.MAX_VALUE. */
  predicate Qualifies(d: real, c: string, used: set<string>, cap: Option<real>) {
    c !in used && d < MaxDouble && (cap.None? || d < cap.value)
  }

  /**
   * The scan over the candidates in iteration order: (closest id, its distance)
   * after the first |cands| candidates, replacing the best only on a strictly
   * smaller distance. Starts from (null, Double.MAX_VALUE).
   */
  function Scan(sensor: string, cands: seq<string>, dist: (string, string) -> real, used: set<string>, cap: Option<real>): (r: (Option<string>, real))
    decreases |cands|
  {
    if cands == [] then (None, MaxDouble)
    else
      var prev := Scan(sensor, cands[..|cands| - 1], dist, used, cap);
      var c := cands[|cands| - 1];
      if dist(sensor, c) < prev.1 && c !in used && (cap.None? || dist(sensor, c) < cap.value) then (Some(c), dist(sensor, c)) else prev
  }

  /**
   * What the scan finds: nothing exactly when no candidate qualifies;
   * otherwise a qualifying candidate at the smallest distance, the first
   * such one in iteration order.
   */
  lemma {:induction false} ScanFinds(sensor: string, cands: seq<string>, dist: (string, string) -> real, used: set<string>, cap: Option<real>)
    ensures var r := Scan(sensor, cands, dist, used, cap);
      r.0.None? <==> forall j :: 0 <= j < |cands| ==> !Qualifies(dist(sensor, cands[j]), cands[j], used, cap)
    ensures var r := Scan(sensor, cands, dist, used, cap);
      r.0.None? ==> r.1 == MaxDouble
    ensures var r := Scan(sensor, cands, dist, used, cap);
      r.0.Some? ==>
        && r.1 == dist(sensor, r.0.value) && Qualifies(r.1, r.0.value, used, cap)
        && (forall j :: 0 <= j < |cands| && Qualifies(dist(sensor, cands[j]), cands[j], used, cap) ==> r.1 <= dist(sensor, cands[j]))
        && exists k :: 0 <= k < |cands| && cands[k] == r.0.value
             && forall j :: 0 <= j < k && Qualifies(dist(sensor, cands[j]), cands[j], used, cap) ==> dist(sensor, cands[j]) > r.1
    decreases |cands|
  {
    if cands != [] {
      var init := cands[..|cands| - 1];
      ScanFinds(sensor, init, dist, used, cap);
      var prev := Scan(sensor, init, dist, used, cap);
      var c := cands[|cands| - 1];
      assert forall j :: 0 <= j < |init| ==> cands[j] == init[j];
      if dist(sensor, c) < prev.1 && c !in used && (cap.None? || dist(sensor, c) < cap.value) {
        assert prev.1 <= MaxDouble;
        assert cands[|cands| - 1] == c;
      } else if prev.0.Some? {
        var k :| 0 <= k < |init| && init[k] == prev.0.value
          && forall j :: 0 <= j < k && Qualifies(dist(sensor, init[j]), init[j], used, cap) ==> dist(sensor, init[j]) > prev.1;
        assert cands[k] == prev.0.value;
      }
    }
  }

  /** The inner search loop: the candidate with the smallest qualifying distance, and that distance. */
  method Nearest(sensor: string, cands: seq<string>, dist: (string, string) -> real, used: set<string>, cap: Option<real>)
    returns (closest: Option<string>, minDistance: real)
    ensures (closest, minDistance) == Scan(sensor, cands, dist, used, cap)
  {
    closest, minDistance := None, MaxDouble;
    var i := 0;
    while i < |cands|
      invariant 0 <= i <= |cands|
      invariant (closest, minDistance) == Scan(sensor, cands[..i], dist, used, cap)
    {
      assert cands[..i + 1][..i] == cands[..i];
      var c := cands[i];
      var d := dist(sensor, c);
      if d < minDistance && c !in used && (cap.None? || d < cap.value) {
        minDistance := d;
        closest := Some(c);
      }
      i := i + 1;
    }
    assert cands[..|cands|] == cands;
  }

  // ---------------------------------------------------------------------------
  // Mapping every sensor
  // ---------------------------------------------------------------------------

  /** The result map and the used-candidate set after the given sensors. */
  datatype Matching = Matching(mapped: map<string, string>, used: set<string>)

  /**
   * The outer loop in the order the sensors are met. With `exclusive` a
   * chosen candidate is marked used and skipped for later sensors; without
   * it (the node search) nothing is ever marked used. A sensor for which
   * nothing qualifies is skipped.
   */
  function Match(sensors: seq<string>, cands: seq<string>, dist: (string, string) -> real,
                 cap: Option<real>, exclusive: bool): (m: Matching)
    ensures forall s :: s in m.mapped ==> s in sensors
    ensures exclusive ==> m.mapped.Values <= m.used
    ensures !exclusive ==> m.used == {}
    decreases |sensors|
  {
    if sensors == [] then Matching(map[], {})
    else
      var prev := Match(sensors[..|sensors| - 1], cands, dist, cap, exclusive);
      var s := sensors[|sensors| - 1];
      var found := Scan(s, cands, dist, prev.used, cap).0;
      if found.None? then prev
      else if exclusive then Matching(prev.mapped[s := found.value], prev.used + {found.value})
      else Matching(prev.mapped[s := found.value], {})
  }

  predicate Distinct(xs: seq<string>) {
    forall i, j :: 0 <= i < j < |xs| ==> xs[i] != xs[j]
  }

  lemma DistinctPrefix(xs: seq<string>, n: nat)
    requires Distinct(xs) && n <= |xs|
    ensures Distinct(xs[..n])
  {
  }

  /** What the scan at the i-th sensor's turn finds, against the candidates used by the sensors before it. */
  function Turn(sensors: seq<string>, cands: seq<string>, dist: (string, string) -> real,
                cap: Option<real>, exclusive: bool, i: nat): Option<string>
    requires i < |sensors|
  {
    Scan(sensors[i], cands, dist, Match(sensors[..i], cands, dist, cap, exclusive).used, cap).0
  }

  /**
   * The i-th sensor's entry: mapped exactly when the scan at its turn, against
   * the candidates used by the sensors before it, finds something, and then
   * mapped to what it found.
   */
  lemma {:induction false} MatchAt(sensors: seq<string>, cands: seq<string>, dist: (string, string) -> real,
                                   cap: Option<real>, exclusive: bool, i: nat)
    requires Distinct(sensors) && i < |sensors|
    ensures sensors[i] in Match(sensors, cands, dist, cap, exclusive).mapped <==> Turn(sensors, cands, dist, cap, exclusive, i).Some?
    ensures Turn(sensors, cands, dist, cap, exclusive, i).Some? ==>
      Match(sensors, cands, dist, cap, exclusive).mapped[sensors[i]] == Turn(sensors, cands, dist, cap, exclusive, i).value
    decreases |sensors|
  {
    var last := |sensors| - 1;
    if i == last {
      MatchAtLast(sensors, cands, dist, cap, exclusive);
    } else {
      var init := sensors[..last];
      MatchLast(sensors, cands, dist, cap, exclusive);
      DistinctPrefix(sensors, last);
      MatchAt(init, cands, dist, cap, exclusive, i);
      TurnPrefix(sensors, cands, dist, cap, exclusive, i);
      assert sensors[last] != sensors[i];
    }
  }

  /** The last sensor is met only at its own turn, so its entry is whatever that turn finds. */
  lemma MatchAtLast(sensors: seq<string>, cands: seq<string>, dist: (string, string) -> real,
                    cap: Option<real>, exclusive: bool)
    requires Distinct(sensors) && |sensors| > 0
    ensures var t := Turn(sensors, cands, dist, cap, exclusive, |sensors| - 1);
      var m := Match(sensors, cands, dist, cap, exclusive).mapped;
      && (sensors[|sensors| - 1] in m <==> t.Some?)
      && (t.Some? ==> m[sensors[|sensors| - 1]] == t.value)
  {
    var last := |sensors| - 1;
    var init := sensors[..last];
    MatchLast(sensors, cands, dist, cap, exclusive);
    forall j | 0 <= j < |init| ensures init[j] != sensors[last] {
      assert init[j] == sensors[j];
    }
    assert sensors[last] !in init;
  }

  /** A sensor's turn does not depend on the sensors after it. */
  lemma TurnPrefix(sensors: seq<string>, cands: seq<string>, dist: (string, string) -> real,
                   cap: Option<real>, exclusive: bool, i: nat)
    requires i < |sensors| - 1
    ensures Turn(sensors[..|sensors| - 1], cands, dist, cap, exclusive, i) == Turn(sensors, cands, dist, cap, exclusive, i)
  {
    assert sensors[..|sensors| - 1][..i] == sensors[..i];
  }

  /** The last sensor's turn adds its entry, if any, to the map built by the sensors before it. */
  lemma MatchLast(sensors: seq<string>, cands: seq<string>, dist: (string, string) -> real,
                  cap: Option<real>, exclusive: bool)
    requires |sensors| > 0
    ensures var t := Turn(sensors, cands, dist, cap, exclusive, |sensors| - 1);
      var prev := Match(sensors[..|sensors| - 1], cands, dist, cap, exclusive).mapped;
      Match(sensors, cands, dist, cap, exclusive).mapped == if t.None? then prev else prev[sensors[|sensors| - 1] := t.value]
  {
  }

  /** No two keys share a value. */
  predicate Injective(m: map<string, string>) {
    forall s, t :: s in m && t in m && s != t ==> m[s] != m[t]
  }

  /** With exclusive use no candidate is given to two sensors. */
  lemma {:induction false} MatchInjective(sensors: seq<string>, cands: seq<string>, dist: (string, string) -> real, cap: Option<real>)
    ensures Injective(Match(sensors, cands, dist, cap, true).mapped)
    decreases |sensors|
  {
    if sensors != [] {
      var init := sensors[..|sensors| - 1];
      MatchInjective(init, cands, dist, cap);
      var prev := Match(init, cands, dist, cap, true);
      var s := sensors[|sensors| - 1];
      var found := Scan(s, cands, dist, prev.used, cap);
      ScanFinds(s, cands, dist, prev.used, cap);
      if found.0.None? {
        assert Match(sensors, cands, dist, cap, true) == prev;
      } else {
        assert found.0.value !in prev.used;
        assert prev.mapped.Values <= prev.used;
        var m := Match(sensors, cands, dist, cap, true);
        assert m.mapped == prev.mapped[s := found.0.value];
        forall a, b | a in m.mapped && b in m.mapped && a != b ensures m.mapped[a] != m.mapped[b] {
          if a != s && b != s {
            assert a in prev.mapped && b in prev.mapped;
          } else if a == s {
            assert b in prev.mapped && prev.mapped[b] in prev.mapped.Values;
          } else {
            assert a in prev.mapped && prev.mapped[a] in prev.mapped.Values;
          }
        }
      }
    }
  }

  /** Every mapped sensor has one of the candidates, closer than the cap and than Double.MAX_VALUE. */
  predicate AllQualify(m: map<string, string>, cands: seq<string>, dist: (string, string) -> real, cap: Option<real>) {
    forall s :: s in m ==> m[s] in cands && Qualifies(dist(s, m[s]), m[s], {}, cap)
  }

  /** Every mapped sensor has a candidate no farther than any other qualifying candidate. */
  predicate AllNearest(m: map<string, string>, cands: seq<string>, dist: (string, string) -> real, cap: Option<real>) {
    forall s, j :: s in m && 0 <= j < |cands| && Qualifies(dist(s, cands[j]), cands[j], {}, cap) ==>
      dist(s, m[s]) <= dist(s, cands[j])
  }

  /** Every sensor is mapped to one of the candidates, closer than the cap and than Double.MAX_VALUE. */
  lemma {:induction false} MatchQualifies(sensors: seq<string>, cands: seq<string>, dist: (string, string) -> real,
                                          cap: Option<real>, exclusive: bool)
    ensures AllQualify(Match(sensors, cands, dist, cap, exclusive).mapped, cands, dist, cap)
    decreases |sensors|
  {
    if sensors != [] {
      var init := sensors[..|sensors| - 1];
      MatchQualifies(init, cands, dist, cap, exclusive);
      var prev := Match(init, cands, dist, cap, exclusive);
      var s := sensors[|sensors| - 1];
      ScanFinds(s, cands, dist, prev.used, cap);
    }
  }

  /**
   * Without exclusive use (the node search) every sensor gets a candidate at
   * the smallest distance of all candidates, and the first one among equals.
   */
  lemma {:induction false} MatchNearest(sensors: seq<string>, cands: seq<string>, dist: (string, string) -> real, cap: Option<real>)
    ensures AllNearest(Match(sensors, cands, dist, cap, false).mapped, cands, dist, cap)
    decreases |sensors|
  {
    if sensors != [] {
      var init := sensors[..|sensors| - 1];
      MatchNearest(init, cands, dist, cap);
      var s := sensors[|sensors| - 1];
      ScanFinds(s, cands, dist, {}, cap);
    }
  }

  /** The sequence lists every key of the set exactly once. */
  ghost predicate IsOrderOf(order: seq<string>, keys: set<string>) {
    Distinct(order) && forall k :: k in order <==> k in keys
  }

  /** A sequence listing every key of a set once is as long as the set is large. */
  lemma {:induction false} DistinctCard(order: seq<string>, keys: set<string>)
    requires IsOrderOf(order, keys)
    ensures |order| == |keys|
    decreases |order|
  {
    if order != [] {
      var last := order[|order| - 1];
      var init := order[..|order| - 1];
      assert IsOrderOf(init, keys - {last}) by {
        forall k ensures k in init <==> k in keys - {last} {
          if k in init {
            var i :| 0 <= i < |init| && init[i] == k;
            assert order[i] == k && i < |order| - 1;
          }
          if k in keys - {last} {
            assert k in order;
            var i :| 0 <= i < |order| && order[i] == k;
            assert i != |order| - 1;
            assert init[i] == k;
          }
        }
      }
      DistinctCard(init, keys - {last});
    }
  }

  /** A HashMap's key set in its (unspecified) iteration order: every key once. */
  method IterationOrder(keys: set<string>) returns (order: seq<string>)
    ensures IsOrderOf(order, keys)
  {
    order := [];
    var rest := keys;
    while rest != {}
      invariant rest <= keys && Distinct(order)
      invariant forall k :: k in keys <==> k in order || k in rest
      invariant forall k :: k in order ==> k !in rest
      decreases |rest|
    {
      var k :| k in rest;
      order := order + [k];
      rest := rest - {k};
    }
  }

  /** mapSensorsToLinks / mapSensorsToNodes: the outer loop filling the result map and the used set in place. */
  method MapSensors(sensors: seq<string>, cands: seq<string>, dist: (string, string) -> real,
                    cap: Option<real>, exclusive: bool) returns (mapped: map<string, string>)
    ensures mapped == Match(sensors, cands, dist, cap, exclusive).mapped
  {
    mapped := map[];
    var used: set<string> := {};
    var i := 0;
    while i < |sensors|
      invariant 0 <= i <= |sensors|
      invariant Matching(mapped, used) == Match(sensors[..i], cands, dist, cap, exclusive)
    {
      assert sensors[..i + 1][..i] == sensors[..i];
      var s := sensors[i];
      var closest, minDistance := Nearest(s, cands, dist, used, cap);
      if closest.Some? {
        mapped := mapped[s := closest.value];
        if exclusive {
          used := used + {closest.value};
        }
      }
      i := i + 1;
    }
    assert sensors[..|sensors|] == sensors;
  }

  /** The Euclidean distance from the sensor's transformed (lon, lat) to a network coordinate. */
  function TransformedDistance(coords: map<string, seq<real>>, places: map<string, Coord>, transform: Coord -> Coord,
                               euclid: (Coord, Coord) -> real): (string, string) -> real
  {
    (s, c) =>
      if s in coords && |coords[s]| >= 2 && c in places
      then euclid(transform(Coord(coords[s][1], coords[s][0])), places[c])
      else MaxDouble
  }

  /**
   * mapSensorsToLinks: for some iteration order the greedy match with
   * exclusive links and no cap; no link is given twice and every chosen link
   * is one of the network's.
   */
  method MapSensorsToNearestLinks(coords: map<string, seq<real>>, links: map<string, Coord>, linkOrder: seq<string>,
                                 transform: Coord -> Coord, euclid: (Coord, Coord) -> real)
    returns (mapped: map<string, string>)
    ensures exists order ::
      && IsOrderOf(order, coords.Keys)
      && mapped == Match(order, linkOrder, TransformedDistance(coords, links, transform, euclid), None, true).mapped
    ensures Injective(mapped)
    ensures forall s :: s in mapped ==> s in coords
    ensures AllQualify(mapped, linkOrder, TransformedDistance(coords, links, transform, euclid), None)
  {
    var dist := TransformedDistance(coords, links, transform, euclid);
    var order := IterationOrder(coords.Keys);
    mapped := MapSensors(order, linkOrder, dist, None, true);
    MatchInjective(order, linkOrder, dist, None);
    MatchQualifies(order, linkOrder, dist, None, true);
  }

  // ---------------------------------------------------------------------------
  // Count records
  // ---------------------------------------------------------------------------

  /** A `<volume h=.. val=..>` element, with the attribute texts as written. */
  datatype Volume = Volume(h: string, val: string)

  /** A `<count loc_id=.. cs_id=..>` element with its volumes. */
  datatype Count = Count(locId: string, csId: string, volumes: seq<Volume>)

  /** The 24 volumes of one sensor: hour h = 1..24 carries flows[h - 1]. */
  function Volumes(flows: seq<int>): (vs: seq<Volume>)
    requires |flows| >= 24
    ensures |vs| == 24
  {
    seq(24, k requires 0 <= k < 24 => Volume(NatToString(k + 1), IntToString(flows[k])))
  }

  /** Reading the volume attributes back gives the hours 1..24 and the sensor's flows. */
  lemma VolumesRoundTrip(flows: seq<int>, k: nat)
    requires |flows| >= 24 && k < 24
    ensures ParseNat(Volumes(flows)[k].h) == Some(k + 1) && ParseInt(Volumes(flows)[k].val) == Some(flows[k])
  {
    NatRoundTrip(k + 1);
    IntRoundTrip(flows[k]);
  }

  /** The i-th count belongs to the i-th sensor: its link, its id and its 24 volumes. */
  predicate CountsFor(counts: seq<Count>, keys: seq<string>, mapped: map<string, string>, flows: map<string, seq<int>>) {
    |counts| == |keys| && forall i :: 0 <= i < |keys| ==>
      && keys[i] in mapped && keys[i] in flows && |flows[keys[i]]| >= 24
      && counts[i] == Count(mapped[keys[i]], keys[i], Volumes(flows[keys[i]]))
  }

  /** Counts written for distinct sensors of an injective mapping name distinct links. */
  lemma CountLinksDistinct(counts: seq<Count>, keys: seq<string>, mapped: map<string, string>, flows: map<string, seq<int>>)
    requires CountsFor(counts, keys, mapped, flows) && Distinct(keys) && Injective(mapped)
    ensures forall i, j :: 0 <= i < j < |counts| ==> counts[i].locId != counts[j].locId
  {
  }

  /** The inner loop writing one sensor's 24 volume elements. */
  method WriteVolumes(flows: seq<int>) returns (volumes: seq<Volume>)
    requires |flows| >= 24
    ensures volumes == Volumes(flows)
  {
    volumes := [];
    var hour := 0;
    while hour < 24
      invariant 0 <= hour <= 24 && volumes == Volumes(flows)[..hour]
    {
      volumes := volumes + [Volume(NatToString(hour + 1), IntToString(flows[hour]))];
      hour := hour + 1;
    }
  }

  /**
   * writeCountsXML's loop over the mapped sensors, in the key order of the
   * result map: one count per sensor with loc_id the link and cs_id the
   * sensor. A sensor without flows is a null array and fails.
   */
  method WriteCounts(keys: seq<string>, mapped: map<string, string>, flows: map<string, seq<int>>)
    returns (r: Result<seq<Count>>)
    requires forall i :: 0 <= i < |keys| ==> keys[i] in mapped
    ensures r.Ok? <==> forall i :: 0 <= i < |keys| ==> keys[i] in flows && |flows[keys[i]]| >= 24
    ensures r.Ok? ==> CountsFor(r.value, keys, mapped, flows)
  {
    var counts: seq<Count> := [];
    var i := 0;
    while i < |keys|
      invariant 0 <= i <= |keys| && |counts| == i
      invariant forall j :: 0 <= j < i ==> keys[j] in flows && |flows[keys[j]]| >= 24
      invariant forall j :: 0 <= j < i ==> counts[j] == Count(mapped[keys[j]], keys[j], Volumes(flows[keys[j]]))
    {
      var s := keys[i];
      if s !in flows {
        return Err(NullPointer);
      }
      if |flows[s]| < 24 {
        return Err(ArrayIndexOutOfBounds(|flows[s]|));
      }
      var volumes := WriteVolumes(flows[s]);
      counts := counts + [Count(mapped[s], s, volumes)];
      i := i + 1;
    }
    r := Ok(counts);
  }

  /**
   * writeCountsXML: one count per mapped sensor, in the key-set iteration
   * order of the mapping. Fails when a mapped sensor has no flows. Distinct
   * sensors of an injective mapping give counts on distinct links.
   */
  method WriteCountsXML(mapped: map<string, string>, flows: map<string, seq<int>>) returns (r: Result<seq<Count>>)
    ensures r.Ok? <==> forall s :: s in mapped ==> s in flows && |flows[s]| >= 24
    ensures r.Ok? ==> |r.value| == |mapped|
    ensures r.Ok? ==> forall i :: 0 <= i < |r.value| ==>
      var c := r.value[i];
      c.csId in mapped && c.locId == mapped[c.csId] && c.csId in flows && |flows[c.csId]| >= 24 && c.volumes == Volumes(flows[c.csId])
    ensures r.Ok? ==> forall s :: s in mapped ==> exists i :: 0 <= i < |r.value| && r.value[i].csId == s
    ensures r.Ok? && Injective(mapped) ==> forall i, j :: 0 <= i < j < |r.value| ==> r.value[i].locId != r.value[j].locId
    ensures r.Ok? ==> CountsCover(r.value, mapped, flows)
  {
    var keys := IterationOrder(mapped.Keys);
    r := WriteCounts(keys, mapped, flows);
    OrderCoversKeys(keys, mapped, flows);
    if r.Ok? {
      CountsOfMapping(r.value, keys, mapped, flows);
    }
  }

  /**
   * The counts of a mapping: exactly one count per mapped sensor and no
   * other, each on the sensor's link and carrying its volumes.
   */
  predicate CountsCover(counts: seq<Count>, mapped: map<string, string>, flows: map<string, seq<int>>) {
    && |counts| == |mapped|
    && (forall i :: 0 <= i < |counts| ==>
          && counts[i].csId in mapped && counts[i].locId == mapped[counts[i].csId]
          && counts[i].csId in flows && |flows[counts[i].csId]| >= 24 && counts[i].volumes == Volumes(flows[counts[i].csId]))
    && (forall s :: s in mapped ==> exists i :: 0 <= i < |counts| && counts[i].csId == s)
  }

  /**
   * The counts written for the exclusive greedy match of the sensors in
   * some iteration order of their key set: exactly the matched sensors.
   */
  ghost predicate CountsOfMatch(counts: seq<Count>, coords: map<string, seq<real>>, flows: map<string, seq<int>>,
                                cands: seq<string>, dist: (string, string) -> real, cap: Option<real>) {
    exists order :: IsOrderOf(order, coords.Keys) && CountsCover(counts, Match(order, cands, dist, cap, true).mapped, flows)
  }

  /** Every key listed has flows exactly when every key of the mapping has. */
  lemma OrderCoversKeys(keys: seq<string>, mapped: map<string, string>, flows: map<string, seq<int>>)
    requires IsOrderOf(keys, mapped.Keys)
    ensures (forall i :: 0 <= i < |keys| ==> keys[i] in flows && |flows[keys[i]]| >= 24)
      <==> (forall s :: s in mapped ==> s in flows && |flows[s]| >= 24)
  {
    if forall i :: 0 <= i < |keys| ==> keys[i] in flows && |flows[keys[i]]| >= 24 {
      forall s | s in mapped ensures s in flows && |flows[s]| >= 24 {
        var i :| 0 <= i < |keys| && keys[i] == s;
      }
    }
  }

  /** The counts written in a key order of the mapping: one per sensor, each on its sensor's link. */
  lemma CountsOfMapping(counts: seq<Count>, keys: seq<string>, mapped: map<string, string>, flows: map<string, seq<int>>)
    requires CountsFor(counts, keys, mapped, flows) && IsOrderOf(keys, mapped.Keys)
    ensures |counts| == |mapped|
    ensures forall i :: 0 <= i < |counts| ==>
      var c := counts[i];
      c.csId in mapped && c.locId == mapped[c.csId] && c.csId in flows && |flows[c.csId]| >= 24 && c.volumes == Volumes(flows[c.csId])
    ensures forall s :: s in mapped ==> exists i :: 0 <= i < |counts| && counts[i].csId == s
    ensures Injective(mapped) ==> forall i, j :: 0 <= i < j < |counts| ==> counts[i].locId != counts[j].locId
  {
    DistinctCard(keys, mapped.Keys);
    if Injective(mapped) {
      CountLinksDistinct(counts, keys, mapped, flows);
    }
    forall s | s in mapped ensures exists i :: 0 <= i < |counts| && counts[i].csId == s {
      var i :| 0 <= i < |keys| && keys[i] == s;
      assert counts[i].csId == s;
    }
  }

}
