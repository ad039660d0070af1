/**
 * The MATSim-side converter that, besides the link counts, writes the
 * sensors' coordinates to CSV files and maps sensors to their nearest
 * network nodes. The OSM conversion, the coordinate transformation and the
 * Euclidean distance are outside the model and given as parameters; the
 * network is given as its links and nodes (id to coordinate, with their
 * iteration order).
 */
module MatsimOsm2matsim {
  import opened Wrappers
  import opened Text
  import opened SensorMatching

  // ---------------------------------------------------------------------------
  // Arguments and output locations
  // ---------------------------------------------------------------------------

  /** The file names main writes besides the counts. */
  const OriginalCoordinatesFile: string :=
    "C:\\Users\\webec\\CODEPROJECTS\\ASPIRE\\EvMatsim\\matsim\\src\\main\\java\\org\\matsim\\osm2matsim\\original_coordinates.csv"
  const TransformedCoordinatesFile: string := "transformed_coordinates.csv"
  const SensorToNodeFile: string :=
    "C:\\Users\\webec\\CODEPROJECTS\\ASPIRE\\EvMatsim\\matsim\\src\\main\\java\\org\\matsim\\osm2matsim\\sensor_to_node_mapping.csv"
  const SensorToNodeFile2: string := "sensor_to_node_mapping2.csv"

  /** What the command line asks for: the usage exit, or a run with the sensor file and the counts path. */
  datatype Mode = Usage | Convert(sensorFile: string, outputPath: string)

  /**
   * Fewer than three arguments print the usage and exit; the guard lets
   * exactly three through, but args[3] is read regardless and throws.
   */
  function Arguments(args: seq<string>): (r: Result<Mode>)
    ensures r.Ok? && r.value.Usage? <==> |args| < 3
    ensures r.Err? <==> |args| == 3
    ensures r.Err? ==> r.error == ArrayIndexOutOfBounds(3)
    ensures r.Ok? && r.value.Convert? ==> |args| >= 4 && r.value == Convert(args[2], args[3])
  {
    if |args| < 3 then Ok(Usage)
    else if |args| == 3 then Err(ArrayIndexOutOfBounds(3))
    else Ok(Convert(args[2], args[3]))
  }

  /**
   * Path.getParent is not null: some '/' is followed later by a character
   * other than '/'. A bare file name, "/" and "name/" have no parent.
   */
  predicate HasParent(p: string) {
    exists i, j :: 0 <= i < j < |p| && p[i] == '/' && p[j] != '/'
  }

  /** Concrete paths: a directory-qualified file has a parent, a bare file name does not. */
  lemma HasParentExamples()
    ensures HasParent("out/sensor_counts.xml")
    ensures !HasParent("sensor_counts.xml")
    ensures !HasParent("out/")
  {
    assert "out/sensor_counts.xml"[3] == '/' && "out/sensor_counts.xml"[4] != '/';
    var bare := "sensor_counts.xml";
    assert forall i :: 0 <= i < |bare| ==> bare[i] != '/';
    var dir := "out/";
    assert forall j :: 0 <= j < |dir| - 1 ==> dir[j] != '/';
  }

  // ---------------------------------------------------------------------------
  // Coordinate CSV files
  // ---------------------------------------------------------------------------

  /** The CSV rows, one field list per sensor in iteration order whose coordinate array has two entries. */
  function CoordRows(order: seq<string>, coords: map<string, seq<real>>, cells: seq<real> -> seq<string>): (rows: seq<seq<string>>)
    ensures |rows| <= |order|
    decreases |order|
  {
    if order == [] then []
    else
      var rows := CoordRows(order[..|order| - 1], coords, cells);
      var s := order[|order| - 1];
      if s in coords && |coords[s]| == 2 then rows + [[s] + cells(coords[s])] else rows
  }

  /**
   * A sensor of the iteration order gets a row exactly when its coordinate
   * array has two entries, and every row starts with a listed sensor.
   */
  lemma {:induction false} CoordRowsSkip(order: seq<string>, coords: map<string, seq<real>>, cells: seq<real> -> seq<string>)
    requires forall s :: s in order ==> s in coords
    ensures forall k :: 0 <= k < |CoordRows(order, coords, cells)| ==>
      var row := CoordRows(order, coords, cells)[k];
      |row| >= 1 && row[0] in order && |coords[row[0]]| == 2 && row == [row[0]] + cells(coords[row[0]])
    ensures forall s :: s in order ==>
      (|coords[s]| == 2 <==> exists k :: 0 <= k < |CoordRows(order, coords, cells)| && CoordRows(order, coords, cells)[k][0] == s)
    decreases |order|
  {
    if order != [] {
      var init := order[..|order| - 1];
      var s := order[|order| - 1];
      assert forall t :: t in init ==> t in order;
      CoordRowsSkip(init, coords, cells);
      var prev := CoordRows(init, coords, cells);
      var rows := CoordRows(order, coords, cells);
      forall t | t in order
        ensures |coords[t]| == 2 <==> exists k :: 0 <= k < |rows| && rows[k][0] == t
      {
        if t != s {
          assert t in init;
          if |coords[t]| == 2 {
            var k :| 0 <= k < |prev| && prev[k][0] == t;
            assert rows[k] == prev[k];
          }
        } else if |coords[t]| == 2 {
          assert rows[|rows| - 1][0] == t;
        }
      }
    }
  }

  /** A CSV file: the header line followed by one comma-joined line per row. */
  function CsvLines(header: string, rows: seq<seq<string>>): (lines: seq<string>)
    ensures |lines| == |rows| + 1 && lines[0] == header
  {
    [header] + seq(|rows|, k requires 0 <= k < |rows| => Join(rows[k], ","))
  }

  /** Splitting a data line on "," gives its row back when no field holds a comma and the last is not empty. */
  lemma CsvReadBack(header: string, rows: seq<seq<string>>, k: nat)
    requires k < |rows| && |rows[k]| >= 1 && rows[k][|rows[k]| - 1] != ""
    requires forall i :: 0 <= i < |rows[k]| ==> Free(rows[k][i], ',')
    ensures JavaSplit(CsvLines(header, rows)[k + 1], ",") == rows[k]
  {
    SplitOfJoin(rows[k], ',');
  }

  /** The loop of both coordinate writers: a row for each sensor with two coordinates, the others skipped. */
  method WriteCoordinateRows(order: seq<string>, coords: map<string, seq<real>>, cells: seq<real> -> seq<string>)
    returns (rows: seq<seq<string>>)
    ensures rows == CoordRows(order, coords, cells)
  {
    rows := [];
    var i := 0;
    while i < |order|
      invariant 0 <= i <= |order|
      invariant rows == CoordRows(order[..i], coords, cells)
    {
      assert order[..i + 1][..i] == order[..i];
      var s := order[i];
      if s in coords && |coords[s]| == 2 {
        rows := rows + [[s] + cells(coords[s])];
      }
      i := i + 1;
    }
    assert order[..|order|] == order;
  }

  /** writeOriginalCoordinatesToCSV's fields after the id: latitude and longitude as Double.toString prints them. */
  function OriginalCells(show: real -> string): seq<real> -> seq<string> {
    c => if |c| >= 2 then [show(c[0]), show(c[1])] else []
  }

  /** writeOriginalAndTransformedCoordinatesToCSV's fields: latitude, longitude, and x and y of the transformed (lon, lat). */
  function TransformedCells(show: real -> string, transform: Coord -> Coord): seq<real> -> seq<string> {
    c => if |c| >= 2 then [show(c[0]), show(c[1]), show(transform(Coord(c[1], c[0])).x), show(transform(Coord(c[1], c[0])).y)] else []
  }

  // ---------------------------------------------------------------------------
  // Nearest links and nodes
  // ---------------------------------------------------------------------------

  /** The Euclidean distance from the raw (lon, lat) pair, untransformed, to a node's coordinate. */
  function RawDistance(coords: map<string, seq<real>>, places: map<string, Coord>, euclid: (Coord, Coord) -> real): (string, string) -> real
  {
    (s, c) =>
      if s in coords && |coords[s]| >= 2 && c in places
      then euclid(Coord(coords[s][1], coords[s][0]), places[c])
      else MaxDouble
  }

  /**
   * mapSensorsToNodes: every sensor gets a node at the smallest distance
   * over all nodes (several sensors may share one), the first among equals.
   */
  method MapSensorsToNodes(coords: map<string, seq<real>>, nodes: map<string, Coord>, nodeOrder: seq<string>,
                           transform: Coord -> Coord, euclid: (Coord, Coord) -> real)
    returns (mapped: map<string, string>)
    ensures exists order ::
      && IsOrderOf(order, coords.Keys)
      && mapped == Match(order, nodeOrder, TransformedDistance(coords, nodes, transform, euclid), None, false).mapped
    ensures forall s :: s in mapped ==> s in coords
    ensures AllQualify(mapped, nodeOrder, TransformedDistance(coords, nodes, transform, euclid), None)
    ensures AllNearest(mapped, nodeOrder, TransformedDistance(coords, nodes, transform, euclid), None)
  {
    var dist := TransformedDistance(coords, nodes, transform, euclid);
    var order := IterationOrder(coords.Keys);
    mapped := MapSensors(order, nodeOrder, dist, None, false);
    MatchQualifies(order, nodeOrder, dist, None, false);
    MatchNearest(order, nodeOrder, dist, None);
  }

  /** The rows of mapSensorsToNodesAndWriteCSV: sensor, nearest node and its distance, for each sensor that finds one. */
  function NodeRows(order: seq<string>, nodeOrder: seq<string>, dist: (string, string) -> real, show: real -> string): (rows: seq<seq<string>>)
    decreases |order|
  {
    if order == [] then []
    else
      var rows := NodeRows(order[..|order| - 1], nodeOrder, dist, show);
      var s := order[|order| - 1];
      var found := Scan(s, nodeOrder, dist, {}, None);
      if found.0.Some? then rows + [[s, found.0.value, show(found.1)]] else rows
  }

  /**
   * Each row names a listed sensor, a node at the smallest distance of all
   * nodes from it, and that distance as printed.
   */
  lemma {:induction false} NodeRowsNearest(order: seq<string>, nodeOrder: seq<string>, dist: (string, string) -> real, show: real -> string)
    ensures forall k :: 0 <= k < |NodeRows(order, nodeOrder, dist, show)| ==> NearestRow(NodeRows(order, nodeOrder, dist, show)[k], order, nodeOrder, dist, show)
    decreases |order|
  {
    if order != [] {
      var init := order[..|order| - 1];
      NodeRowsNearest(init, nodeOrder, dist, show);
      var s := order[|order| - 1];
      ScanFinds(s, nodeOrder, dist, {}, None);
      var rows := NodeRows(order, nodeOrder, dist, show);
      var prev := NodeRows(init, nodeOrder, dist, show);
      forall k | 0 <= k < |rows| ensures NearestRow(rows[k], order, nodeOrder, dist, show) {
        if k < |prev| {
          assert rows[k] == prev[k];
          assert prev[k][0] in init;
        }
      }
    }
  }

  /** One row of the node CSV: a listed sensor, a nearest node and the printed distance. */
  predicate NearestRow(row: seq<string>, order: seq<string>, nodeOrder: seq<string>, dist: (string, string) -> real, show: real -> string) {
    && |row| == 3 && row[0] in order && row[1] in nodeOrder
    && dist(row[0], row[1]) < MaxDouble && row[2] == show(dist(row[0], row[1]))
    && forall j :: 0 <= j < |nodeOrder| && dist(row[0], nodeOrder[j]) < MaxDouble ==> dist(row[0], row[1]) <= dist(row[0], nodeOrder[j])
  }

  /** mapSensorsToNodesAndWriteCSV's loop: the nearest-node search per sensor, writing a row when one is found. */
  method NodeMappingRows(order: seq<string>, nodeOrder: seq<string>, dist: (string, string) -> real, show: real -> string)
    returns (rows: seq<seq<string>>)
    ensures rows == NodeRows(order, nodeOrder, dist, show)
  {
    rows := [];
    var i := 0;
    while i < |order|
      invariant 0 <= i <= |order|
      invariant rows == NodeRows(order[..i], nodeOrder, dist, show)
    {
      assert order[..i + 1][..i] == order[..i];
      var s := order[i];
      var closest, minDistance := Nearest(s, nodeOrder, dist, {}, None);
      if closest.Some? {
        rows := rows + [[s, closest.value, show(minDistance)]];
      }
      i := i + 1;
    }
    assert order[..|order|] == order;
  }

  /** The rows of a mapping listed in the given key order: each key with its value. */
  function PairRows(keys: seq<string>, mapped: map<string, string>): seq<seq<string>>
    requires forall k :: 0 <= k < |keys| ==> keys[k] in mapped
  {
    seq(|keys|, k requires 0 <= k < |keys| => [keys[k], mapped[keys[k]]])
  }

  /** The second node CSV: one "sensor,node" row per entry of the node mapping, in its iteration order. */
  method MappingRows(mapped: map<string, string>) returns (rows: seq<seq<string>>)
    ensures exists keys :: IsOrderOf(keys, mapped.Keys) && rows == PairRows(keys, mapped)
    ensures |rows| == |mapped|
    ensures forall k :: 0 <= k < |rows| ==> |rows[k]| == 2 && rows[k][0] in mapped && rows[k][1] == mapped[rows[k][0]]
    ensures forall s :: s in mapped ==> exists k :: 0 <= k < |rows| && rows[k][0] == s
  {
    var keys := IterationOrder(mapped.Keys);
    DistinctCard(keys, mapped.Keys);
    rows := [];
    var i := 0;
    while i < |keys|
      invariant 0 <= i <= |keys| && |rows| == i
      invariant forall k :: 0 <= k < i ==> rows[k] == [keys[k], mapped[keys[k]]]
    {
      rows := rows + [[keys[i], mapped[keys[i]]]];
      i := i + 1;
    }
    forall s | s in mapped ensures exists k :: 0 <= k < |rows| && rows[k][0] == s {
      var k :| 0 <= k < |keys| && keys[k] == s;
      assert rows[k][0] == s;
    }
    assert rows == PairRows(keys, mapped);
  }

  // ---------------------------------------------------------------------------
  // main
  // ---------------------------------------------------------------------------

  /** What a run writes: the counts at the given path and the four CSV files by name. */
  datatype Outputs = Outputs(countsPath: string, counts: seq<Count>, csv: map<string, seq<string>>)

  datatype Run = Exit(status: int) | Converted(outputs: Outputs)

  /** The original-coordinates file: a header, then each sensor's id, latitude and longitude in an iteration order of the sensors. */
  ghost predicate OriginalFile(lines: seq<string>, coords: map<string, seq<real>>, show: real -> string) {
    exists order ::
      && IsOrderOf(order, coords.Keys)
      && lines == CsvLines("SensorID,Latitude,Longitude", CoordRows(order, coords, OriginalCells(show)))
  }

  /** The transformed-coordinates file: as the original one, with the transformed x and y appended to each row. */
  ghost predicate TransformedFile(lines: seq<string>, coords: map<string, seq<real>>, transform: Coord -> Coord, show: real -> string) {
    exists order ::
      && IsOrderOf(order, coords.Keys)
      && lines == CsvLines("SensorID,Latitude,Longitude,TransformedX,TransformedY", CoordRows(order, coords, TransformedCells(show, transform)))
  }

  /** The first node file: each sensor with its nearest node by raw coordinates and the distance, in an iteration order of the sensors. */
  ghost predicate DistanceFile(lines: seq<string>, coords: map<string, seq<real>>, nodes: map<string, Coord>, nodeOrder: seq<string>,
                               euclid: (Coord, Coord) -> real, show: real -> string) {
    exists order ::
      && IsOrderOf(order, coords.Keys)
      && lines == CsvLines("SensorID,NodeID,Distance", NodeRows(order, nodeOrder, RawDistance(coords, nodes, euclid), show))
  }

  /**
   * The second node file: the node mapping of mapSensorsToNodes (the match
   * for some iteration order of the sensors), one "sensor,node" row per
   * entry in an iteration order of the mapping.
   */
  ghost predicate MappingFile(lines: seq<string>, coords: map<string, seq<real>>, nodes: map<string, Coord>, nodeOrder: seq<string>,
                              transform: Coord -> Coord, euclid: (Coord, Coord) -> real) {
    exists order ::
      && IsOrderOf(order, coords.Keys)
      && var mapped := Match(order, nodeOrder, TransformedDistance(coords, nodes, transform, euclid), None, false).mapped;
         exists keys :: IsOrderOf(keys, mapped.Keys) && lines == CsvLines("SensorID,NodeID", PairRows(keys, mapped))
  }

  /** The two coordinate files, each written in an iteration order of the sensors. */
  method WriteCoordinateFiles(coords: map<string, seq<real>>, transform: Coord -> Coord, show: real -> string)
    returns (original: seq<string>, transformed: seq<string>)
    ensures OriginalFile(original, coords, show)
    ensures TransformedFile(transformed, coords, transform, show)
  {
    var order := IterationOrder(coords.Keys);
    var rows := WriteCoordinateRows(order, coords, OriginalCells(show));
    original := CsvLines("SensorID,Latitude,Longitude", rows);
    var order2 := IterationOrder(coords.Keys);
    var rows2 := WriteCoordinateRows(order2, coords, TransformedCells(show, transform));
    transformed := CsvLines("SensorID,Latitude,Longitude,TransformedX,TransformedY", rows2);
  }

  /**
   * mapSensorsToNearestLinks, then writeCountsXML. Every sensor read has its
   * flows, so the counts are written; they are exactly the matched sensors,
   * each on a distinct link of the network.
   */
  method CountMappedSensors(data: SensorData, links: map<string, Coord>, linkOrder: seq<string>,
                            transform: Coord -> Coord, euclid: (Coord, Coord) -> real)
    returns (r: Result<seq<Count>>)
    ensures (forall s :: s in data.coords ==> s in data.flows && |data.flows[s]| >= 24) ==> r.Ok?
    ensures r.Ok? ==>
      && (forall i :: 0 <= i < |r.value| ==>
            r.value[i].csId in data.flows && |data.flows[r.value[i].csId]| >= 24 && r.value[i].locId in linkOrder
            && r.value[i].volumes == Volumes(data.flows[r.value[i].csId]))
      && (forall i, j :: 0 <= i < j < |r.value| ==> r.value[i].locId != r.value[j].locId)
      && CountsOfMatch(r.value, data.coords, data.flows, linkOrder, TransformedDistance(data.coords, links, transform, euclid), None)
  {
    var mapped := MapSensorsToNearestLinks(data.coords, links, linkOrder, transform, euclid);
    ghost var order :| IsOrderOf(order, data.coords.Keys)
      && mapped == Match(order, linkOrder, TransformedDistance(data.coords, links, transform, euclid), None, true).mapped;
    r := WriteCountsXML(mapped, data.flows);
    if r.Ok? {
      forall i | 0 <= i < |r.value|
        ensures r.value[i].csId in data.flows && r.value[i].locId in linkOrder
        ensures r.value[i].volumes == Volumes(data.flows[r.value[i].csId])
      {
        var c := r.value[i];
        assert c.csId in mapped && c.locId == mapped[c.csId];
      }
      assert CountsOfMatch(r.value, data.coords, data.flows, linkOrder, TransformedDistance(data.coords, links, transform, euclid), None);
    }
  }

  /** The two node files: the raw-coordinate nearest nodes with distances, then the transformed node mapping. */
  method WriteNodeFiles(coords: map<string, seq<real>>, nodes: map<string, Coord>, nodeOrder: seq<string>,
                        transform: Coord -> Coord, euclid: (Coord, Coord) -> real, show: real -> string)
    returns (withDistances: seq<string>, mapping: seq<string>)
    ensures DistanceFile(withDistances, coords, nodes, nodeOrder, euclid, show)
    ensures MappingFile(mapping, coords, nodes, nodeOrder, transform, euclid)
  {
    var order := IterationOrder(coords.Keys);
    var rows := NodeMappingRows(order, nodeOrder, RawDistance(coords, nodes, euclid), show);
    withDistances := CsvLines("SensorID,NodeID,Distance", rows);
    var nodeMap := MapSensorsToNodes(coords, nodes, nodeOrder, transform, euclid);
    var rows2 := MappingRows(nodeMap);
    mapping := CsvLines("SensorID,NodeID", rows2);
    ghost var nodeOrder' :| IsOrderOf(nodeOrder', coords.Keys)
      && nodeMap == Match(nodeOrder', nodeOrder, TransformedDistance(coords, nodes, transform, euclid), None, false).mapped;
    ghost var keys :| IsOrderOf(keys, nodeMap.Keys) && rows2 == PairRows(keys, nodeMap);
  }

  /** The four CSV files by name; the four names are distinct, so each file keeps its own lines. */
  function CsvFiles(original: seq<string>, transformed: seq<string>, withDistances: seq<string>, mapping: seq<string>)
    : (csv: map<string, seq<string>>)
    ensures csv.Keys == {OriginalCoordinatesFile, TransformedCoordinatesFile, SensorToNodeFile, SensorToNodeFile2}
    ensures && csv[OriginalCoordinatesFile] == original && csv[TransformedCoordinatesFile] == transformed
            && csv[SensorToNodeFile] == withDistances && csv[SensorToNodeFile2] == mapping
  {
    assert |OriginalCoordinatesFile| != |SensorToNodeFile|;
    assert TransformedCoordinatesFile[0] != SensorToNodeFile2[0];
    assert |OriginalCoordinatesFile| != |TransformedCoordinatesFile| && |OriginalCoordinatesFile| != |SensorToNodeFile2|;
    assert |SensorToNodeFile| != |TransformedCoordinatesFile| && |SensorToNodeFile| != |SensorToNodeFile2|;
    map[
      OriginalCoordinatesFile := original,
      TransformedCoordinatesFile := transformed,
      SensorToNodeFile := withDistances,
      SensorToNodeFile2 := mapping]
  }

  /**
   * main after the network conversion: read the sensors, write both
   * coordinate files, map to links and write the counts (whose path must
   * have a parent directory), then write both node files.
   */
  method Execute(args: seq<string>, sensorLines: seq<string>, links: map<string, Coord>, linkOrder: seq<string>,
              nodes: map<string, Coord>, nodeOrder: seq<string>,
              transform: Coord -> Coord, euclid: (Coord, Coord) -> real, show: real -> string)
    returns (r: Result<Run>)
    ensures r.Ok? && r.value.Exit? <==> |args| < 3
    ensures r.Ok? && r.value.Exit? ==> r.value.status == 1
    ensures |args| == 3 ==> r == Err(ArrayIndexOutOfBounds(3))
    ensures |args| >= 4 && ReadSensorData(sensorLines).Err? ==> r == Err(ReadSensorData(sensorLines).error)
    ensures |args| >= 4 && ReadSensorData(sensorLines).Ok? ==> (r == Err(NullPointer) <==> !HasParent(args[3]))
    ensures r.Ok? && r.value.Converted? ==>
      && |args| >= 4 && ReadSensorData(sensorLines).Ok?
      && var data := ReadSensorData(sensorLines).value;
         var out := r.value.outputs;
         && out.countsPath == args[3]
         && out.csv.Keys == {OriginalCoordinatesFile, TransformedCoordinatesFile, SensorToNodeFile, SensorToNodeFile2}
         && (forall i :: 0 <= i < |out.counts| ==>
               out.counts[i].csId in data.flows && |data.flows[out.counts[i].csId]| >= 24 && out.counts[i].locId in linkOrder
               && out.counts[i].volumes == Volumes(data.flows[out.counts[i].csId]))
         && (forall i, j :: 0 <= i < j < |out.counts| ==> out.counts[i].locId != out.counts[j].locId)
         && CountsOfMatch(out.counts, data.coords, data.flows, linkOrder, TransformedDistance(data.coords, links, transform, euclid), None)
         && OriginalFile(out.csv[OriginalCoordinatesFile], data.coords, show)
         && TransformedFile(out.csv[TransformedCoordinatesFile], data.coords, transform, show)
         && DistanceFile(out.csv[SensorToNodeFile], data.coords, nodes, nodeOrder, euclid, show)
         && MappingFile(out.csv[SensorToNodeFile2], data.coords, nodes, nodeOrder, transform, euclid)
  {
    var mode := Arguments(args);
    if mode.Err? {
      return Err(mode.error);
    }
    if mode.value.Usage? {
      return Ok(Exit(1));
    }
    var outputPath := mode.value.outputPath;
    var read := ReadSensorLines(sensorLines);
    if read.Err? {
      return Err(read.error);
    }
    var data := read.value;
    var original, transformed := WriteCoordinateFiles(data.coords, transform, show);
    if !HasParent(outputPath) {
      return Err(NullPointer);
    }
    var counts := CountMappedSensors(data, links, linkOrder, transform, euclid);
    var withDistances, mapping := WriteNodeFiles(data.coords, nodes, nodeOrder, transform, euclid, show);
    r := Ok(Converted(Outputs(outputPath, counts.value, CsvFiles(original, transformed, withDistances, mapping))));
  }
}
