/**
 * The converter that maps sensors to links within a distance cap: argument
 * handling, the capped haversine search over the links and the counts it
 * writes. The OSM conversion itself, the network cleaner and the XML
 * serialisation are outside the model; the network is given as its links.
 */
module GetNetworkAndSensors {
  import opened Wrappers
  import opened Text
  import opened SensorMatching

  /** What the command line asks for. */
  datatype Mode = Usage | NetworkOnly | Mapping(sensorFile: string, outputPath: string, maxDistanceMeters: int)

  /**
   * Two arguments convert the network only; fewer than five otherwise print
   * the usage and exit; exactly five also map the sensors, with the cap read
   * by Integer.parseInt; more than five convert the network only.
   */
  function Arguments(args: seq<string>): (r: Result<Mode>)
    ensures r.Ok? && r.value.Usage? <==> |args| < 5 && |args| != 2
    ensures r.Ok? && r.value.NetworkOnly? <==> |args| == 2 || |args| > 5
    ensures r.Ok? && r.value.Mapping? <==> |args| == 5 && JavaParseInt(args[4]).Ok?
    ensures r.Err? ==> |args| == 5 && r.error == NumberFormat(args[4])
    ensures r.Ok? && r.value.Mapping? ==>
      r.value.sensorFile == args[2] && r.value.outputPath == args[3] && r.value.maxDistanceMeters == JavaParseInt(args[4]).value
  {
    if |args| == 2 then Ok(NetworkOnly)
    else if |args| < 5 then Ok(Usage)
    else if |args| == 5 then
      match JavaParseInt(args[4])
      case Ok(m) => Ok(Mapping(args[2], args[3], m))
      case Err(e) => Err(e)
    else Ok(NetworkOnly)
  }

  /** Five arguments whose last is a printed int select the mapping with exactly that cap. */
  lemma MappingWithPrintedCap(osm: string, network: string, sensors: string, output: string, cap: int)
    requires IntMin <= cap <= IntMax
    ensures Arguments([osm, network, sensors, output, IntToString(cap)]) == Ok(Mapping(sensors, output, cap))
  {
    JavaParseIntPrinted(cap);
  }

  /**
   * The haversine distance from a sensor (latitude, longitude) to a link's
   * coordinate taken back to WGS84, where y is the latitude and x the
   * longitude. An id missing from either side is never within reach.
   */
  function LinkDistance(coords: map<string, seq<real>>, links: map<string, Coord>, inverse: Coord -> Coord,
                        haversine: (real, real, real, real) -> real): (string, string) -> real
  {
    (s, c) =>
      if s in coords && |coords[s]| >= 2 && c in links
      then haversine(coords[s][0], coords[s][1], inverse(links[c]).y, inverse(links[c]).x)
      else MaxDouble
  }

  /**
   * mapSensorsToLinks: for some iteration order of the sensors the result is
   * the greedy match with exclusive links and the cap; no link is given
   * twice, and every chosen link is one of the network's and closer than the cap.
   */
  method MapSensorsToLinks(coords: map<string, seq<real>>, links: map<string, Coord>, linkOrder: seq<string>,
                           inverse: Coord -> Coord, haversine: (real, real, real, real) -> real, maxDistanceMeters: int)
    returns (mapped: map<string, string>)
    ensures exists order ::
      && IsOrderOf(order, coords.Keys)
      && mapped == Match(order, linkOrder, LinkDistance(coords, links, inverse, haversine), Some(maxDistanceMeters as real), true).mapped
    ensures Injective(mapped)
    ensures forall s :: s in mapped ==> s in coords
    ensures AllQualify(mapped, linkOrder, LinkDistance(coords, links, inverse, haversine), Some(maxDistanceMeters as real))
  {
    var dist := LinkDistance(coords, links, inverse, haversine);
    var cap := Some(maxDistanceMeters as real);
    var order := IterationOrder(coords.Keys);
    mapped := MapSensors(order, linkOrder, dist, cap, true);
    MatchInjective(order, linkOrder, dist, cap);
    MatchQualifies(order, linkOrder, dist, cap, true);
  }

  /**
   * The mapping branch of main: mapSensorsToLinks, then writeCountsXML.
   * Every sensor read has its flows, so the counts are written; they are
   * exactly the matched sensors, each on a distinct link within the cap.
   */
  method CountMappedSensors(data: SensorData, links: map<string, Coord>, linkOrder: seq<string>,
                            inverse: Coord -> Coord, haversine: (real, real, real, real) -> real, maxDistanceMeters: int)
    returns (r: Result<seq<Count>>)
    ensures (forall s :: s in data.coords ==> s in data.flows && |data.flows[s]| >= 24) ==> r.Ok?
    ensures r.Ok? ==>
      var dist := LinkDistance(data.coords, links, inverse, haversine);
      && (forall i :: 0 <= i < |r.value| ==>
            var c := r.value[i];
            c.csId in data.flows && |data.flows[c.csId]| >= 24 && c.locId in linkOrder && dist(c.csId, c.locId) < maxDistanceMeters as real
            && c.volumes == Volumes(data.flows[c.csId]))
      && (forall i, j :: 0 <= i < j < |r.value| ==> r.value[i].locId != r.value[j].locId)
      && CountsOfMatch(r.value, data.coords, data.flows, linkOrder, dist, Some(maxDistanceMeters as real))
  {
    var mapped := MapSensorsToLinks(data.coords, links, linkOrder, inverse, haversine, maxDistanceMeters);
    ghost var order :| IsOrderOf(order, data.coords.Keys)
      && mapped == Match(order, linkOrder, LinkDistance(data.coords, links, inverse, haversine), Some(maxDistanceMeters as real), true).mapped;
    r := WriteCountsXML(mapped, data.flows);
    if r.Ok? {
      var dist := LinkDistance(data.coords, links, inverse, haversine);
      forall i | 0 <= i < |r.value|
        ensures r.value[i].locId in linkOrder && dist(r.value[i].csId, r.value[i].locId) < maxDistanceMeters as real
      {
        var c := r.value[i];
        assert c.csId in mapped && c.locId == mapped[c.csId];
      }
      assert CountsOfMatch(r.value, data.coords, data.flows, linkOrder, dist, Some(maxDistanceMeters as real));
    }
  }

  /** How a run ends: the usage exit, the network alone, or the counts written to a path. */
  datatype Run = Exit(status: int) | NetworkConverted | CountsWritten(path: string, counts: seq<Count>)

  /**
   * main, given the lines of the sensor file and the converted network's
   * links (id to coordinate, and their iteration order).
   */
  method Execute(args: seq<string>, sensorLines: seq<string>, links: map<string, Coord>, linkOrder: seq<string>,
              inverse: Coord -> Coord, haversine: (real, real, real, real) -> real)
    returns (r: Result<Run>)
    ensures r.Ok? && r.value.Exit? <==> Arguments(args) == Ok(Usage)
    ensures r.Ok? && r.value.Exit? ==> r.value.status == 1
    ensures r.Ok? && r.value.NetworkConverted? <==> Arguments(args) == Ok(NetworkOnly)
    ensures r.Err? <==> Arguments(args).Err? || (Arguments(args).value.Mapping? && ReadSensorData(sensorLines).Err?)
    ensures r.Ok? && r.value.CountsWritten? ==>
      && Arguments(args).Ok? && Arguments(args).value.Mapping? && r.value.path == args[3]
      && ReadSensorData(sensorLines).Ok?
      && var data := ReadSensorData(sensorLines).value;
         var dist := LinkDistance(data.coords, links, inverse, haversine);
         var cap := Arguments(args).value.maxDistanceMeters as real;
         && (forall i :: 0 <= i < |r.value.counts| ==>
               var c := r.value.counts[i];
               c.csId in data.flows && c.locId in linkOrder && dist(c.csId, c.locId) < cap && c.volumes == Volumes(data.flows[c.csId]))
         && (forall i, j :: 0 <= i < j < |r.value.counts| ==> r.value.counts[i].locId != r.value.counts[j].locId)
         && CountsOfMatch(r.value.counts, data.coords, data.flows, linkOrder, dist, Some(cap))
  {
    var mode := Arguments(args);
    if mode.Err? {
      return Err(mode.error);
    }
    match mode.value
    case Usage =>
      r := Ok(Exit(1));
    case NetworkOnly =>
      r := Ok(NetworkConverted);
    case Mapping(_, outputPath, maxDistanceMeters) =>
      var read := ReadSensorLines(sensorLines);
      if read.Err? {
        return Err(read.error);
      }
      var data := read.value;
      var counts := CountMappedSensors(data, links, linkOrder, inverse, haversine, maxDistanceMeters);
      r := Ok(CountsWritten(outputPath, counts.value));
  }
}
