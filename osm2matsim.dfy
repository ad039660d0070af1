/**
 * The stand-alone converter run in a container: it checks its arguments,
 * maps sensors to the nearest unused links and writes the counts to a fixed
 * file in the mounted output directory. The OSM conversion, the coordinate
 * transformation and the Euclidean distance are given as parameters.
 */
module Osm2matsim {
  import opened Wrappers
  import opened Text
  import opened SensorMatching

  /** The counts file name main passes, and the directory writeCountsXML puts it in. */
  const CountsFileName: string := "sensor_counts.xml"
  const OutputDirectory: string := "/osm2matsim/output/"

  datatype Run = Exit(status: int) | CountsWritten(path: string, counts: seq<Count>)

  /**
   * main: fewer than three arguments exit with status 1; otherwise the
   * sensors of the file named by args[2] are read, mapped to links and
   * written as counts.
   */
  method Execute(args: seq<string>, sensorLines: seq<string>, links: map<string, Coord>, linkOrder: seq<string>,
              transform: Coord -> Coord, euclid: (Coord, Coord) -> real)
    returns (r: Result<Run>)
    ensures r.Ok? && r.value.Exit? <==> |args| < 3
    ensures r.Ok? && r.value.Exit? ==> r.value.status == 1
    ensures r.Err? <==> |args| >= 3 && ReadSensorData(sensorLines).Err?
    ensures r.Err? ==> r.error == ReadSensorData(sensorLines).error
    ensures r.Ok? && r.value.CountsWritten? ==>
      && ReadSensorData(sensorLines).Ok?
      && r.value.path == OutputDirectory + CountsFileName
      && var data := ReadSensorData(sensorLines).value;
         var dist := TransformedDistance(data.coords, links, transform, euclid);
         && (forall i :: 0 <= i < |r.value.counts| ==>
               var c := r.value.counts[i];
               c.csId in data.flows && c.locId in linkOrder && dist(c.csId, c.locId) < MaxDouble
               && c.volumes == Volumes(data.flows[c.csId]))
         && (forall i, j :: 0 <= i < j < |r.value.counts| ==> r.value.counts[i].locId != r.value.counts[j].locId)
         && CountsOfMatch(r.value.counts, data.coords, data.flows, linkOrder, dist, None)
  {
    if |args| < 3 {
      return Ok(Exit(1));
    }
    var read := ReadSensorLines(sensorLines);
    if read.Err? {
      return Err(read.error);
    }
    var data := read.value;
    var mapped := MapSensorsToNearestLinks(data.coords, links, linkOrder, transform, euclid);
    ghost var order :| IsOrderOf(order, data.coords.Keys)
      && mapped == Match(order, linkOrder, TransformedDistance(data.coords, links, transform, euclid), None, true).mapped;
    var counts := WriteCountsXML(mapped, data.flows);
    assert counts.Ok?;
    var dist := TransformedDistance(data.coords, links, transform, euclid);
    forall i | 0 <= i < |counts.value|
      ensures counts.value[i].locId in linkOrder && dist(counts.value[i].csId, counts.value[i].locId) < MaxDouble
    {
      var c := counts.value[i];
      assert c.csId in mapped && c.locId == mapped[c.csId];
    }
    assert CountsOfMatch(counts.value, data.coords, data.flows, linkOrder, dist, None);
    r := Ok(CountsWritten(OutputDirectory + CountsFileName, counts.value));
  }
}
