/**
 * The conversion of processed OSM ways into MATSim links: each way is cut
 * into segments at intersections, its end node and preserved nodes (loops
 * keep every node), each segment gives a forward and/or a reverse link
 * depending on the oneway tags, and every link is added to the network,
 * where a repeated link id is an error. Ways are converted one after
 * another in a given order.
 */
module OsmNetworkReader {
  import opened Wrappers
  import opened Text
  import Decimals

  // The OSM tag keys and values the rules read.
  const Oneway := "oneway"
  const Junction := "junction"
  const Roundabout := "roundabout"
  const Highway := "highway"
  const MaxSpeed := "maxspeed"
  const Mph := "mph"
  const Lanes := "lanes"
  const LanesForward := "lanes:forward"
  const LanesBackward := "lanes:backward"

  // Hierarchy levels of the road classes, motorway the highest.
  const LevelMotorway := 1
  const LevelTertiary := 5

  type Tags = map<string, string>
  type Coord = (real, real)

  /** The defaults of one highway type. */
  datatype LinkProperties = LinkProperties(hierarchyLevel: int, lanesPerDirection: real, freespeed: real, laneCapacity: real, oneway: bool)

  /** A node after parsing: whether it joins several ways, and which ways reference it. */
  datatype OsmNode = OsmNode(id: int, coord: Coord, intersection: bool, ways: set<int>)

  datatype OsmWay = OsmWay(id: int, nodeIds: seq<int>, endNodeId: int, properties: LinkProperties, tags: Tags)

  datatype WaySegment = WaySegment(from: OsmNode, to: OsmNode, length: real, properties: LinkProperties, tags: Tags,
                                   wayId: int, segmentId: int)

  /** A network node: id and coordinate. */
  datatype Node = Node(id: int, coord: Coord)

  datatype Link = Link(id: int, from: Node, to: Node, length: real, freespeed: real, lanes: real, capacity: real,
                       origId: int, highwayType: string)

  /**
   * The reader's settings: the Euclidean distance, the filter deciding
   * whether a loop at a coordinate with a hierarchy level is kept, and the
   * nodes to keep even when they are no intersection.
   */
  datatype Settings = Settings(distance: (Coord, Coord) -> real, includeLink: (Coord, int) -> bool, preserveNode: int -> bool)

  // ---------------------------------------------------------------------------
  // Tag rules
  // ---------------------------------------------------------------------------

  predicate OnewayTag(t: string) { t == "yes" || t == "true" || t == "1" }
  predicate ReverseTag(t: string) { t == "-1" || t == "reverse" }
  predicate NotOnewayTag(t: string) { t == "no" || t == "false" || t == "0" }

  function IsOneway(tags: Tags, properties: LinkProperties): bool {
    if Oneway in tags && OnewayTag(tags[Oneway]) then true
    else if Oneway in tags && (ReverseTag(tags[Oneway]) || NotOnewayTag(tags[Oneway])) then false
    else if Junction in tags && tags[Junction] == Roundabout then true
    else properties.oneway
  }

  function IsOnewayReverse(tags: Tags): bool {
    if Oneway in tags then
      var t := tags[Oneway];
      if OnewayTag(t) || NotOnewayTag(t) then false else ReverseTag(t)
    else false
  }

  /**
   * A way is oneway for a oneway value yes/true/1, two-way for -1/reverse/
   * no/false/0, and otherwise oneway on a roundabout and as its highway
   * type says elsewhere; it runs against its node order exactly for -1 and
   * reverse.
   */
  lemma OnewayRules(tags: Tags, properties: LinkProperties)
    ensures Oneway in tags && OnewayTag(tags[Oneway]) ==> IsOneway(tags, properties)
    ensures Oneway in tags && (ReverseTag(tags[Oneway]) || NotOnewayTag(tags[Oneway])) ==> !IsOneway(tags, properties)
    ensures !(Oneway in tags && (OnewayTag(tags[Oneway]) || ReverseTag(tags[Oneway]) || NotOnewayTag(tags[Oneway]))) ==>
      IsOneway(tags, properties) == ((Junction in tags && tags[Junction] == Roundabout) || properties.oneway)
    ensures IsOnewayReverse(tags) <==> Oneway in tags && ReverseTag(tags[Oneway])
    ensures IsOnewayReverse(tags) ==> !IsOneway(tags, properties)
  {
  }

  /** Lane capacity, doubled on links shorter than 100. */
  function LaneCapacity(length: real, properties: LinkProperties): (c: real)
    ensures c == if length < 100.0 then 2.0 * properties.laneCapacity else properties.laneCapacity
  {
    properties.laneCapacity * (if length < 100.0 then 2.0 else 1.0)
  }

  /** Double.parseDouble on finite decimal numerals, or None where it throws NumberFormatException. */
  function ParseDouble(s: string): (r: Option<real>)
    ensures r.Some? <==> Decimals.JavaParse(s).Ok?
  {
    match Decimals.JavaParse(s)
    case Ok(d) => Some(Decimals.Value(d))
    case Err(_) => None
  }

  /** A tag holding a printed number, with or without an exponent, reads back as its value. */
  lemma ParseDoublePrinted(d: Decimals.Decimal)
    requires |d.fraction| >= 1
    ensures ParseDouble(Decimals.Print(d)) == Some(Decimals.Value(d))
  {
    Decimals.ParsePrint(d);
  }

  /**
   * The lanes of one direction: with a lanes tag, a positive
   * direction-specific tag, else the lanes tag (halved on a two-way way);
   * the type's default without a lanes tag or when a number does not parse.
   */
  function NumberOfLanes(tags: Tags, isReverse: bool, properties: LinkProperties): real {
    if Lanes !in tags then properties.lanesPerDirection
    else
      var key := if isReverse then LanesBackward else LanesForward;
      if key in tags && ParseDouble(tags[key]).None? then properties.lanesPerDirection
      else if key in tags && ParseDouble(tags[key]).value > 0.0 then ParseDouble(tags[key]).value
      else
        match ParseDouble(tags[Lanes])
        case None => properties.lanesPerDirection
        case Some(lanes) => if !IsOneway(tags, properties) then lanes / 2.0 else lanes
  }

  lemma NumberOfLanesRules(tags: Tags, isReverse: bool, properties: LinkProperties)
    ensures var key := if isReverse then LanesBackward else LanesForward;
      && (Lanes !in tags ==> NumberOfLanes(tags, isReverse, properties) == properties.lanesPerDirection)
      && (Lanes in tags && key in tags && ParseDouble(tags[key]).Some? && ParseDouble(tags[key]).value > 0.0 ==>
            NumberOfLanes(tags, isReverse, properties) == ParseDouble(tags[key]).value)
      && (Lanes in tags && key !in tags && ParseDouble(tags[Lanes]).Some? ==>
            NumberOfLanes(tags, isReverse, properties) ==
              if IsOneway(tags, properties) then ParseDouble(tags[Lanes]).value else ParseDouble(tags[Lanes]).value / 2.0)
      && (Lanes in tags && key !in tags && ParseDouble(tags[Lanes]).None? ==> NumberOfLanes(tags, isReverse, properties) == properties.lanesPerDirection)
  {
  }

  /** The maxspeed tag in m/s: a value in mph or km/h, or the type's default when it does not parse. */
  function ParseSpeedTag(tag: string, properties: LinkProperties): real {
    if |tag| >= |Mph| && tag[|tag| - |Mph|..] == Mph then
      match ParseDouble(Decimals.Trim(RemoveAll(tag, Mph)))
      case Some(v) => v * 1.609344 / 3.6
      case None => properties.freespeed
    else
      match ParseDouble(tag)
      case Some(v) => v / 3.6
      case None => properties.freespeed
  }

  /**
   * Without a maxspeed tag, links of the levels below motorway down to
   * tertiary shorter than 300 get a speed interpolated from 10 km/h at
   * length 0; every other link gets the type's default.
   */
  function SpeedIfNoSpeedTag(properties: LinkProperties, length: real): real {
    if LevelMotorway < properties.hierarchyLevel <= LevelTertiary && length < 300.0 then
      (10.0 + (properties.freespeed - 10.0) / 300.0 * length) / 3.6
    else properties.freespeed
  }

  /** The free speed: a tagged speed is halved at or below 51 km/h. */
  function Freespeed(tags: Tags, length: real, properties: LinkProperties): real {
    if MaxSpeed in tags then
      var speed := ParseSpeedTag(tags[MaxSpeed], properties);
      speed * (if speed <= 51.0 / 3.6 then 0.5 else 1.0)
    else SpeedIfNoSpeedTag(properties, length)
  }

  /**
   * A tagged speed of at most 51 km/h counts half; an untagged short link
   * of a middle level drives 10 km/h at length 0 and between that and its
   * type's default divided by 3.6 below length 300; any other untagged
   * link drives its type's default.
   */
  lemma FreespeedRules(tags: Tags, length: real, properties: LinkProperties)
    ensures MaxSpeed in tags ==>
      var speed := ParseSpeedTag(tags[MaxSpeed], properties);
      Freespeed(tags, length, properties) == if speed <= 51.0 / 3.6 then speed / 2.0 else speed
    ensures MaxSpeed !in tags && (length >= 300.0 || !(LevelMotorway < properties.hierarchyLevel <= LevelTertiary)) ==>
      Freespeed(tags, length, properties) == properties.freespeed
    ensures MaxSpeed !in tags && LevelMotorway < properties.hierarchyLevel <= LevelTertiary && 0.0 <= length < 300.0
            && properties.freespeed >= 10.0 ==>
      10.0 / 3.6 <= Freespeed(tags, length, properties) <= properties.freespeed / 3.6
    ensures MaxSpeed !in tags && LevelMotorway < properties.hierarchyLevel <= LevelTertiary ==>
      Freespeed(tags, 0.0, properties) == 10.0 / 3.6
  {
    if MaxSpeed !in tags && LevelMotorway < properties.hierarchyLevel <= LevelTertiary && 0.0 <= length < 300.0
       && properties.freespeed >= 10.0 {
      Interpolation(properties.freespeed, length);
    }
  }

  lemma Interpolation(freespeed: real, length: real)
    requires freespeed >= 10.0 && 0.0 <= length < 300.0
    ensures 10.0 / 3.6 <= (10.0 + (freespeed - 10.0) / 300.0 * length) / 3.6 <= freespeed / 3.6
  {
    var slope := (freespeed - 10.0) / 300.0;
    assert slope >= 0.0;
    assert 0.0 <= slope * length <= slope * 300.0;
    assert slope * 300.0 == freespeed - 10.0;
    assert 10.0 <= 10.0 + slope * length <= freespeed;
  }

  // ---------------------------------------------------------------------------
  // Way segmentation
  // ---------------------------------------------------------------------------

  function SegmentId(way: OsmWay, postfix: int): int {
    way.id * 10000 + postfix
  }

  /** nodes.get(id), where a missing node leads to a NullPointerException when it is used. */
  function NodeOf(nodes: map<int, OsmNode>, id: int): Result<OsmNode> {
    if id in nodes then Ok(nodes[id]) else Err(NullPointer)
  }

  /**
   * The segments of a loop that closes at index i + 1 back at node, walked
   * backwards from index i: each from the node at index j to the one after
   * it, ids counting up by two from postfix, until the loop's first node.
   */
  function LoopBack(nodes: map<int, OsmNode>, node: OsmNode, way: OsmWay, i: int, to: OsmNode, postfix: int, s: Settings)
    : (r: Result<seq<WaySegment>>)
    requires i < |way.nodeIds|
    ensures r.Ok? ==> |r.value| <= if i < 0 then 0 else i
    ensures r.Ok? ==> forall k :: 0 <= k < |r.value| ==>
      r.value[k].segmentId == SegmentId(way, postfix + 2 * k) && r.value[k].wayId == way.id
    ensures r.Ok? && |r.value| > 0 ==> r.value[0].to == to
    ensures r.Ok? ==> forall k :: 0 < k < |r.value| ==> r.value[k].to == r.value[k - 1].from
    decreases i
  {
    if i <= 0 then Ok([])
    else
      match NodeOf(nodes, way.nodeIds[i])
      case Err(e) => Err(e)
      case Ok(from) =>
        var segment := WaySegment(from, to, s.distance(from.coord, to.coord), way.properties, way.tags, way.id,
                                  SegmentId(way, postfix));
        if way.nodeIds[i] == node.id then Ok([segment])
        else
          Prepend([segment], LoopBack(nodes, node, way, i - 1, from, postfix + 2, s))
  }

  /** The segments found so far followed by the rest of the walk, or the walk's failure. */
  function Prepend(found: seq<WaySegment>, rest: Result<seq<WaySegment>>): Result<seq<WaySegment>> {
    match rest
    case Err(e) => Err(e)
    case Ok(more) => Ok(found + more)
  }

  lemma PrependNothing(rest: Result<seq<WaySegment>>)
    ensures Prepend([], rest) == rest
  {
    if rest.Ok? {
      assert [] + rest.value == rest.value;
    }
  }

  lemma PrependTwice(a: seq<WaySegment>, b: seq<WaySegment>, rest: Result<seq<WaySegment>>)
    ensures Prepend(a, Prepend(b, rest)) == Prepend(a + b, rest)
  {
    if rest.Ok? {
      assert a + (b + rest.value) == (a + b) + rest.value;
    }
  }

  /** handleLoop: nothing when the filter rejects the loop, else every segment of it. */
  function HandleLoop(nodes: map<int, OsmNode>, node: OsmNode, way: OsmWay, toNodeIndex: int, postfix: int, s: Settings)
    : (r: Result<seq<WaySegment>>)
    requires toNodeIndex <= |way.nodeIds|
  {
    if !s.includeLink(node.coord, way.properties.hierarchyLevel) then Ok([])
    else LoopBack(nodes, node, way, toNodeIndex - 1, node, postfix, s)
  }

  /**
   * The loop of handleLoop, walking back from toNodeIndex - 1 and stopping
   * after the segment that starts at the loop's node.
   */
  method LoopSegments(nodes: map<int, OsmNode>, node: OsmNode, way: OsmWay, toNodeIndex: int, idPostfix: int, s: Settings)
    returns (r: Result<seq<WaySegment>>)
    requires toNodeIndex <= |way.nodeIds|
    ensures r == HandleLoop(nodes, node, way, toNodeIndex, idPostfix, s)
  {
    if !s.includeLink(node.coord, way.properties.hierarchyLevel) {
      return Ok([]);
    }
    var result: seq<WaySegment> := [];
    var toSegmentNode := node;
    var postfix := idPostfix;
    var i := toNodeIndex - 1;
    PrependNothing(LoopBack(nodes, node, way, i, node, idPostfix, s));
    while i > 0
      invariant i < |way.nodeIds|
      invariant postfix == idPostfix + 2 * |result|
      invariant LoopBack(nodes, node, way, toNodeIndex - 1, node, idPostfix, s)
             == Prepend(result, LoopBack(nodes, node, way, i, toSegmentNode, postfix, s))
      decreases i
    {
      ghost var before := result;
      var fromId := way.nodeIds[i];
      if fromId !in nodes {
        return Err(NullPointer);
      }
      var fromSegmentNode := nodes[fromId];
      var segment := WaySegment(fromSegmentNode, toSegmentNode, s.distance(fromSegmentNode.coord, toSegmentNode.coord),
                                way.properties, way.tags, way.id, SegmentId(way, postfix));
      assert LoopBack(nodes, node, way, i, toSegmentNode, postfix, s)
          == if fromId == node.id then Ok([segment])
             else Prepend([segment], LoopBack(nodes, node, way, i - 1, fromSegmentNode, postfix + 2, s));
      result := result + [segment];
      if fromId == node.id {
        break;
      }
      PrependTwice(before, [segment], LoopBack(nodes, node, way, i - 1, fromSegmentNode, postfix + 2, s));
      toSegmentNode := fromSegmentNode;
      postfix := postfix + 2;
      i := i - 1;
    }
    if i <= 0 {
      assert result + [] == result;
    }
    r := Ok(result);
  }

  /** The scan of createWaySegments: segments so far, length since the last cut, the node it started at, the next id postfix. */
  datatype Scan = Scan(segments: seq<WaySegment>, length: real, from: OsmNode, postfix: int)

  /** One node step i: a loop back to the segment's start, a cut at a closing node, or a longer segment. */
  function ScanStep(st: Result<Scan>, nodes: map<int, OsmNode>, way: OsmWay, i: nat, s: Settings): Result<Scan>
    requires 1 <= i < |way.nodeIds|
  {
    if st.Err? then st
    else
      var sc := st.value;
      if way.nodeIds[i - 1] !in nodes || way.nodeIds[i] !in nodes then Err(NullPointer)
      else
        var a := nodes[way.nodeIds[i - 1]];
        var b := nodes[way.nodeIds[i]];
        var length := sc.length + s.distance(a.coord, b.coord);
        if sc.from.id == b.id then
          match HandleLoop(nodes, sc.from, way, i, sc.postfix, s)
          case Err(e) => Err(e)
          case Ok(loop) => Ok(Scan(sc.segments + loop, 0.0, b, sc.postfix + 2 * |loop| + 2))
        else if (b.intersection || b.id == way.endNodeId || s.preserveNode(b.id))
                && (way.id in b.ways || way.id in sc.from.ways) then
          var segment := WaySegment(sc.from, b, length, way.properties, way.tags, way.id, SegmentId(way, sc.postfix));
          Ok(Scan(sc.segments + [segment], 0.0, b, sc.postfix + 2))
        else Ok(Scan(sc.segments, length, sc.from, sc.postfix + 2))
  }

  /** The scan after the node steps 1..n-1. */
  function Scanned(nodes: map<int, OsmNode>, way: OsmWay, s: Settings, n: nat): Result<Scan>
    requires 1 <= n <= |way.nodeIds| && way.nodeIds[0] in nodes
  {
    if n == 1 then Ok(Scan([], 0.0, nodes[way.nodeIds[0]], 1))
    else ScanStep(Scanned(nodes, way, s, n - 1), nodes, way, n - 1, s)
  }

  /** createWaySegments: an empty way fails on its first node; a missing node fails once used. */
  function WaySegments(nodes: map<int, OsmNode>, way: OsmWay, s: Settings): Result<seq<WaySegment>> {
    if |way.nodeIds| == 0 then Err(ArrayIndexOutOfBounds(0))
    else if |way.nodeIds| == 1 then Ok([])
    else if way.nodeIds[0] !in nodes then Err(NullPointer)
    else
      match Scanned(nodes, way, s, |way.nodeIds|)
      case Err(e) => Err(e)
      case Ok(sc) => Ok(sc.segments)
  }

  method CreateWaySegments(nodes: map<int, OsmNode>, way: OsmWay, s: Settings) returns (r: Result<seq<WaySegment>>)
    ensures r == WaySegments(nodes, way, s)
  {
    if |way.nodeIds| == 0 {
      return Err(ArrayIndexOutOfBounds(0));
    }
    if |way.nodeIds| == 1 {
      return Ok([]);
    }
    if way.nodeIds[0] !in nodes {
      return Err(NullPointer);
    }
    var segments: seq<WaySegment> := [];
    var segmentLength := 0.0;
    var fromNodeForSegment := nodes[way.nodeIds[0]];
    var postfix := 1;
    for i := 1 to |way.nodeIds|
      invariant Scanned(nodes, way, s, i) == Ok(Scan(segments, segmentLength, fromNodeForSegment, postfix))
    {
      var fromOsmNode := NodeOf(nodes, way.nodeIds[i - 1]);
      var toOsmNode := NodeOf(nodes, way.nodeIds[i]);
      if fromOsmNode.Err? || toOsmNode.Err? {
        assert Scanned(nodes, way, s, i + 1) == Err(NullPointer);
        WaySegmentsFail(nodes, way, s, i + 1);
        return Err(NullPointer);
      }
      var b := toOsmNode.value;
      segmentLength := segmentLength + s.distance(fromOsmNode.value.coord, b.coord);
      if fromNodeForSegment.id == b.id {
        var loop := LoopSegments(nodes, fromNodeForSegment, way, i, postfix, s);
        if loop.Err? {
          assert Scanned(nodes, way, s, i + 1) == Err(loop.error);
          WaySegmentsFail(nodes, way, s, i + 1);
          return Err(loop.error);
        }
        segments := segments + loop.value;
        postfix := postfix + 2 * |loop.value|;
        segmentLength := 0.0;
        fromNodeForSegment := b;
      } else if b.intersection || b.id == way.endNodeId || s.preserveNode(b.id) {
        if way.id in b.ways || way.id in fromNodeForSegment.ways {
          segments := segments + [WaySegment(fromNodeForSegment, b, segmentLength, way.properties, way.tags, way.id,
                                             SegmentId(way, postfix))];
          segmentLength := 0.0;
          fromNodeForSegment := b;
        }
      }
      postfix := postfix + 2;
    }
    assert Scanned(nodes, way, s, |way.nodeIds|) == Ok(Scan(segments, segmentLength, fromNodeForSegment, postfix));
    r := Ok(segments);
  }

  /**
   * The ids of a way's segments: way id times 10000 plus an odd postfix
   * below the next one to hand out, each at least two above the one before.
   */
  predicate Spaced(segments: seq<WaySegment>, way: OsmWay, postfix: int) {
    && (forall k :: 0 <= k < |segments| ==>
          segments[k].wayId == way.id && (segments[k].segmentId - way.id * 10000) % 2 == 1
          && segments[k].segmentId + 2 <= SegmentId(way, postfix))
    && (forall j, k :: 0 <= j < k < |segments| ==> segments[j].segmentId + 2 <= segments[k].segmentId)
  }

  lemma LoopSpaced(segments: seq<WaySegment>, loop: seq<WaySegment>, way: OsmWay, postfix: int)
    requires postfix % 2 == 1 && Spaced(segments, way, postfix)
    requires forall k :: 0 <= k < |loop| ==> loop[k].segmentId == SegmentId(way, postfix + 2 * k) && loop[k].wayId == way.id
    ensures Spaced(segments + loop, way, postfix + 2 * |loop| + 2)
  {
    var all := segments + loop;
    forall k | |segments| <= k < |all|
      ensures all[k].segmentId - way.id * 10000 == postfix + 2 * (k - |segments|)
    {
      assert all[k] == loop[k - |segments|];
    }
  }

  lemma CutSpaced(segments: seq<WaySegment>, segment: WaySegment, way: OsmWay, postfix: int)
    requires postfix % 2 == 1 && Spaced(segments, way, postfix)
    requires segment.segmentId == SegmentId(way, postfix) && segment.wayId == way.id
    ensures Spaced(segments + [segment], way, postfix + 2)
  {
  }

  lemma ScanStepSpaced(st: Result<Scan>, nodes: map<int, OsmNode>, way: OsmWay, i: nat, s: Settings)
    requires 1 <= i < |way.nodeIds|
    requires st.Ok? ==> st.value.postfix % 2 == 1 && st.value.postfix >= 2 * i - 1 && Spaced(st.value.segments, way, st.value.postfix)
    ensures var r := ScanStep(st, nodes, way, i, s);
      r.Ok? ==> r.value.postfix % 2 == 1 && r.value.postfix >= 2 * i + 1 && Spaced(r.value.segments, way, r.value.postfix)
  {
    var r := ScanStep(st, nodes, way, i, s);
    if st.Ok? && r.Ok? {
      var sc := st.value;
      var a := nodes[way.nodeIds[i - 1]];
      var b := nodes[way.nodeIds[i]];
      var length := sc.length + s.distance(a.coord, b.coord);
      if sc.from.id == b.id {
        var loop := HandleLoop(nodes, sc.from, way, i, sc.postfix, s).value;
        assert r.value == Scan(sc.segments + loop, 0.0, b, sc.postfix + 2 * |loop| + 2);
        LoopSpaced(sc.segments, loop, way, sc.postfix);
      } else if (b.intersection || b.id == way.endNodeId || s.preserveNode(b.id))
                && (way.id in b.ways || way.id in sc.from.ways) {
        var segment := WaySegment(sc.from, b, length, way.properties, way.tags, way.id, SegmentId(way, sc.postfix));
        assert r.value == Scan(sc.segments + [segment], 0.0, b, sc.postfix + 2);
        CutSpaced(sc.segments, segment, way, sc.postfix);
      } else {
        assert r.value == Scan(sc.segments, length, sc.from, sc.postfix + 2);
      }
    }
  }

  lemma {:induction false} ScannedSpaced(nodes: map<int, OsmNode>, way: OsmWay, s: Settings, n: nat)
    requires 1 <= n <= |way.nodeIds| && way.nodeIds[0] in nodes
    ensures var r := Scanned(nodes, way, s, n);
      r.Ok? ==> r.value.postfix % 2 == 1 && r.value.postfix >= 2 * n - 1 && Spaced(r.value.segments, way, r.value.postfix)
  {
    if n > 1 {
      ScannedSpaced(nodes, way, s, n - 1);
      ScanStepSpaced(Scanned(nodes, way, s, n - 1), nodes, way, n - 1, s);
    }
  }

  /** A scan that fails at some node step makes createWaySegments fail with that error. */
  lemma WaySegmentsFail(nodes: map<int, OsmNode>, way: OsmWay, s: Settings, m: nat)
    requires 1 <= m <= |way.nodeIds| && way.nodeIds[0] in nodes && Scanned(nodes, way, s, m).Err?
    ensures WaySegments(nodes, way, s) == Err(Scanned(nodes, way, s, m).error)
  {
    ScannedErrSticks(nodes, way, s, m, |way.nodeIds|);
  }

  lemma {:induction false} ScannedErrSticks(nodes: map<int, OsmNode>, way: OsmWay, s: Settings, m: nat, n: nat)
    requires 1 <= m <= n <= |way.nodeIds| && way.nodeIds[0] in nodes
    requires Scanned(nodes, way, s, m).Err?
    ensures Scanned(nodes, way, s, n) == Scanned(nodes, way, s, m)
    decreases n
  {
    if n > m {
      ScannedErrSticks(nodes, way, s, m, n - 1);
    }
  }

  /**
   * Within a way, both link ids of a segment (the segment id for the
   * forward link, one more for the reverse link) lie below those of every
   * later segment, so no two links of a way share an id.
   */
  lemma WayLinkIdsDistinct(nodes: map<int, OsmNode>, way: OsmWay, s: Settings)
    ensures var r := WaySegments(nodes, way, s);
      r.Ok? ==> forall j, k :: 0 <= j < k < |r.value| ==> r.value[j].segmentId + 1 < r.value[k].segmentId
  {
    if |way.nodeIds| > 1 && way.nodeIds[0] in nodes {
      ScannedSpaced(nodes, way, s, |way.nodeIds|);
    }
  }

  // ---------------------------------------------------------------------------
  // Links
  // ---------------------------------------------------------------------------

  /**
   * createLink: the properties of the segment's highway type from the
   * reader's table (a missing highway tag or type fails), speed, lanes and
   * capacity from the rules above, the reverse link one id higher.
   */
  function CreateLink(from: Node, to: Node, segment: WaySegment, isReverse: bool, table: map<string, LinkProperties>)
    : (r: Result<Link>)
    ensures r.Ok? <==> Highway in segment.tags && segment.tags[Highway] in table
    ensures r.Ok? ==>
      var properties := table[segment.tags[Highway]];
      && r.value.id == (if isReverse then segment.segmentId + 1 else segment.segmentId)
      && r.value.from == from && r.value.to == to && r.value.length == segment.length
      && r.value.freespeed == Freespeed(segment.tags, segment.length, properties)
      && r.value.lanes == NumberOfLanes(segment.tags, isReverse, properties)
      && r.value.capacity == LaneCapacity(segment.length, properties) * r.value.lanes
      && r.value.origId == segment.wayId && r.value.highwayType == segment.tags[Highway]
  {
    if Highway !in segment.tags || segment.tags[Highway] !in table then Err(NullPointer)
    else
      var highwayType := segment.tags[Highway];
      var properties := table[highwayType];
      var lanes := NumberOfLanes(segment.tags, isReverse, properties);
      Ok(Link(if isReverse then segment.segmentId + 1 else segment.segmentId, from, to, segment.length,
              Freespeed(segment.tags, segment.length, properties), lanes,
              LaneCapacity(segment.length, properties) * lanes, segment.wayId, highwayType))
  }

  /** createLinks: the forward link unless the way runs in reverse, then the reverse link unless it is oneway. */
  function CreateLinks(segment: WaySegment, table: map<string, LinkProperties>): (r: Result<seq<Link>>) {
    var from := Node(segment.from.id, segment.from.coord);
    var to := Node(segment.to.id, segment.to.coord);
    var forward := if IsOnewayReverse(segment.tags) then Ok([]) else
      match CreateLink(from, to, segment, false, table)
      case Err(e) => Err(e)
      case Ok(l) => Ok([l]);
    if forward.Err? then forward
    else if IsOneway(segment.tags, segment.properties) then forward
    else
      match CreateLink(to, from, segment, true, table)
      case Err(e) => Err(e)
      case Ok(l) => Ok(forward.value + [l])
  }

  /**
   * A segment gives one or two links: forward ones from its start to its
   * end with the segment id, reverse ones the other way with the id plus
   * one; oneway=-1 gives only the reverse link and oneway=yes only the
   * forward one.
   */
  lemma CreateLinksDirections(segment: WaySegment, table: map<string, LinkProperties>)
    ensures var r := CreateLinks(segment, table);
      r.Ok? ==>
        && 1 <= |r.value| <= 2
        && |r.value| == (if IsOnewayReverse(segment.tags) then 0 else 1) + (if IsOneway(segment.tags, segment.properties) then 0 else 1)
        && (forall l :: l in r.value ==>
              (l.id == segment.segmentId && l.from.id == segment.from.id && l.to.id == segment.to.id)
              || (l.id == segment.segmentId + 1 && l.from.id == segment.to.id && l.to.id == segment.from.id))
        && (!IsOnewayReverse(segment.tags) ==> r.value[0].id == segment.segmentId)
        && (!IsOneway(segment.tags, segment.properties) ==> r.value[|r.value| - 1].id == segment.segmentId + 1)
    ensures Oneway in segment.tags && segment.tags[Oneway] == "-1" && CreateLinks(segment, table).Ok? ==>
      CreateLinks(segment, table).value == [CreateLink(Node(segment.to.id, segment.to.coord), Node(segment.from.id, segment.from.coord),
                                                       segment, true, table).value]
    ensures Oneway in segment.tags && segment.tags[Oneway] == "yes" && CreateLinks(segment, table).Ok? ==>
      CreateLinks(segment, table).value == [CreateLink(Node(segment.from.id, segment.from.coord), Node(segment.to.id, segment.to.coord),
                                                       segment, false, table).value]
  {
    OnewayRules(segment.tags, segment.properties);
  }

  // ---------------------------------------------------------------------------
  // The network
  // ---------------------------------------------------------------------------

  /** Every link is stored under its own id, and its end nodes are in the network under theirs. */
  predicate Consistent(nodes: map<int, Node>, links: map<int, Link>) {
    && (forall id :: id in nodes ==> nodes[id].id == id)
    && (forall id :: id in links ==> links[id].id == id && links[id].from.id in nodes && links[id].to.id in nodes)
  }

  /** addLinkToNetwork on a network given as its node and link tables. */
  function AddLink(nodes: map<int, Node>, links: map<int, Link>, link: Link): Result<(map<int, Node>, map<int, Link>)> {
    var withFrom := if link.from.id in nodes then nodes else nodes[link.from.id := link.from];
    var withTo := if link.to.id in withFrom then withFrom else withFrom[link.to.id := link.to];
    if link.id in links then Err(RuntimeError("Link id: " + IntToString(link.id) + " was already present!"))
    else Ok((withTo, links[link.id := link]))
  }

  /** Adding links one after another; a failure stays. */
  function AddLinks(st: Result<(map<int, Node>, map<int, Link>)>, links: seq<Link>): Result<(map<int, Node>, map<int, Link>)>
    decreases |links|
  {
    if links == [] || st.Err? then st
    else AddLinks(AddLink(st.value.0, st.value.1, links[0]), links[1..])
  }

  /** The links of the segments, each segment's links added before the next segment's are made. */
  function AddSegments(st: Result<(map<int, Node>, map<int, Link>)>, segments: seq<WaySegment>, table: map<string, LinkProperties>)
    : Result<(map<int, Node>, map<int, Link>)>
    decreases |segments|
  {
    if segments == [] || st.Err? then st
    else
      match CreateLinks(segments[0], table)
      case Err(e) => Err(e)
      case Ok(links) => AddSegments(AddLinks(st, links), segments[1..], table)
  }

  /** The conversion of the ways in order. */
  function ConvertWays(st: Result<(map<int, Node>, map<int, Link>)>, nodes: map<int, OsmNode>, ways: seq<OsmWay>,
                       table: map<string, LinkProperties>, s: Settings): Result<(map<int, Node>, map<int, Link>)>
    decreases |ways|
  {
    if ways == [] || st.Err? then st
    else
      match WaySegments(nodes, ways[0], s)
      case Err(e) => Err(e)
      case Ok(segments) => ConvertWays(AddSegments(st, segments, table), nodes, ways[1..], table, s)
  }

  lemma AddLinkConsistent(nodes: map<int, Node>, links: map<int, Link>, link: Link)
    requires Consistent(nodes, links)
    ensures AddLink(nodes, links, link).Ok? <==> link.id !in links
    ensures AddLink(nodes, links, link).Ok? ==>
      var (n, l) := AddLink(nodes, links, link).value;
      Consistent(n, l) && l == links[link.id := link] && nodes.Keys <= n.Keys
      && n.Keys == nodes.Keys + {link.from.id, link.to.id}
  {
  }

  lemma {:induction false} AddLinksConsistent(st: Result<(map<int, Node>, map<int, Link>)>, links: seq<Link>)
    requires st.Ok? ==> Consistent(st.value.0, st.value.1)
    ensures var r := AddLinks(st, links); r.Ok? ==> Consistent(r.value.0, r.value.1)
    decreases |links|
  {
    if links != [] && st.Ok? {
      AddLinkConsistent(st.value.0, st.value.1, links[0]);
      AddLinksConsistent(AddLink(st.value.0, st.value.1, links[0]), links[1..]);
    }
  }

  lemma {:induction false} AddSegmentsConsistent(st: Result<(map<int, Node>, map<int, Link>)>, segments: seq<WaySegment>,
                                                 table: map<string, LinkProperties>)
    requires st.Ok? ==> Consistent(st.value.0, st.value.1)
    ensures var r := AddSegments(st, segments, table); r.Ok? ==> Consistent(r.value.0, r.value.1)
    decreases |segments|
  {
    if segments != [] && st.Ok? {
      var links := CreateLinks(segments[0], table);
      if links.Ok? {
        AddLinksConsistent(st, links.value);
        AddSegmentsConsistent(AddLinks(st, links.value), segments[1..], table);
      }
    }
  }

  /** A converted network stores every link under its id with both end nodes present. */
  lemma {:induction false} ConvertWaysConsistent(st: Result<(map<int, Node>, map<int, Link>)>, nodes: map<int, OsmNode>,
                                                 ways: seq<OsmWay>, table: map<string, LinkProperties>, s: Settings)
    requires st.Ok? ==> Consistent(st.value.0, st.value.1)
    ensures var r := ConvertWays(st, nodes, ways, table, s); r.Ok? ==> Consistent(r.value.0, r.value.1)
    decreases |ways|
  {
    if ways != [] && st.Ok? {
      var segments := WaySegments(nodes, ways[0], s);
      if segments.Ok? {
        AddSegmentsConsistent(st, segments.value, table);
        ConvertWaysConsistent(AddSegments(st, segments.value, table), nodes, ways[1..], table, s);
      }
    }
  }

  /** The reader after build(): its link-property table and settings, and the network it fills. */
  class Reader {
    const table: map<string, LinkProperties>
    const settings: Settings
    var nodes: map<int, Node>
    var links: map<int, Link>

    constructor (table: map<string, LinkProperties>, settings: Settings)
      ensures this.table == table && this.settings == settings && nodes == map[] && links == map[]
    {
      this.table, this.settings := table, settings;
      nodes, links := map[], map[];
    }

    /** addLinkToNetwork: missing end nodes are added; a link id already present is an error and adds no link. */
    method AddLinkToNetwork(link: Link) returns (r: Result<()>)
      modifies this
      ensures r.Ok? <==> link.id !in old(links)
      ensures r.Ok? ==> Ok((nodes, links)) == AddLink(old(nodes), old(links), link)
      ensures r.Err? ==> links == old(links) && r == Err(RuntimeError("Link id: " + IntToString(link.id) + " was already present!"))
      ensures nodes.Keys == old(nodes).Keys + {link.from.id, link.to.id}
    {
      if link.from.id !in nodes {
        nodes := nodes[link.from.id := link.from];
      }
      if link.to.id !in nodes {
        nodes := nodes[link.to.id := link.to];
      }
      if link.id !in links {
        links := links[link.id := link];
        r := Ok(());
      } else {
        r := Err(RuntimeError("Link id: " + IntToString(link.id) + " was already present!"));
      }
    }

    /**
     * convert: the ways one after another, every segment's links added as
     * they are made; on success the network is the one ConvertWays gives.
     */
    method Convert(osmNodes: map<int, OsmNode>, ways: seq<OsmWay>) returns (r: Result<()>)
      modifies this
      ensures var spec := ConvertWays(Ok((old(nodes), old(links))), osmNodes, ways, table, settings);
        (r.Ok? <==> spec.Ok?) && (r.Ok? ==> spec.value == (nodes, links)) && (r.Err? ==> r.error == spec.error)
    {
      for w := 0 to |ways|
        invariant ConvertWays(Ok((old(nodes), old(links))), osmNodes, ways, table, settings)
               == ConvertWays(Ok((nodes, links)), osmNodes, ways[w..], table, settings)
      {
        var segments := CreateWaySegments(osmNodes, ways[w], settings);
        if segments.Err? {
          return Err(segments.error);
        }
        assert ways[w..][1..] == ways[w + 1..];
        var added := AddWayLinks(segments.value);
        if added.Err? {
          ConvertWaysErr(osmNodes, ways[w + 1..], table, settings, added.error);
          return added;
        }
      }
      r := Ok(());
    }

    /** The links of one way's segments, each segment's links made and added in turn. */
    method AddWayLinks(segments: seq<WaySegment>) returns (r: Result<()>)
      modifies this
      ensures var spec := AddSegments(Ok((old(nodes), old(links))), segments, table);
        (r.Ok? ==> spec == Ok((nodes, links))) && (r.Err? ==> spec == Err(r.error))
    {
      for k := 0 to |segments|
        invariant AddSegments(Ok((old(nodes), old(links))), segments, table) == AddSegments(Ok((nodes, links)), segments[k..], table)
      {
        var made := CreateLinks(segments[k], table);
        if made.Err? {
          return Err(made.error);
        }
        assert segments[k..][1..] == segments[k + 1..];
        var added := AddSegmentLinks(made.value);
        if added.Err? {
          AddSegmentsErr(segments[k + 1..], table, added.error);
          return added;
        }
      }
      r := Ok(());
    }

    /** The links of one segment, added one after another. */
    method AddSegmentLinks(made: seq<Link>) returns (r: Result<()>)
      modifies this
      ensures var spec := AddLinks(Ok((old(nodes), old(links))), made);
        (r.Ok? ==> spec == Ok((nodes, links))) && (r.Err? ==> spec == Err(r.error))
    {
      for j := 0 to |made|
        invariant AddLinks(Ok((old(nodes), old(links))), made) == AddLinks(Ok((nodes, links)), made[j..])
      {
        var added := AddLinkToNetwork(made[j]);
        assert made[j..][1..] == made[j + 1..];
        if added.Err? {
          AddLinksErr(made[j + 1..], added.error);
          return added;
        }
      }
      r := Ok(());
    }
  }

  lemma {:induction false} AddLinksErr(links: seq<Link>, e: Error)
    ensures AddLinks(Err(e), links) == Err(e)
  {
  }

  lemma {:induction false} AddSegmentsErr(segments: seq<WaySegment>, table: map<string, LinkProperties>, e: Error)
    ensures AddSegments(Err(e), segments, table) == Err(e)
  {
  }

  lemma {:induction false} ConvertWaysErr(nodes: map<int, OsmNode>, ways: seq<OsmWay>, table: map<string, LinkProperties>,
                                          s: Settings, e: Error)
    ensures ConvertWays(Err(e), nodes, ways, table, s) == Err(e)
  {
  }

  // ---------------------------------------------------------------------------
  // The builder
  // ---------------------------------------------------------------------------

  /** A coordinate transformation, known here only by name. */
  datatype Transformation = Transformation(name: string)

  datatype Builder = Builder(transformation: Option<Transformation>, table: map<string, LinkProperties>, settings: Settings)

  /** addOverridingLinkProperties: the highway type's properties replaced or added. */
  function AddOverridingLinkProperties(b: Builder, highwayType: string, properties: LinkProperties): (r: Builder)
    ensures r.table == b.table[highwayType := properties] && r.transformation == b.transformation && r.settings == b.settings
  {
    b.(table := b.table[highwayType := properties])
  }

  /** build(): a reader needs a target coordinate transformation. */
  function Build(b: Builder): (r: Result<(Transformation, map<string, LinkProperties>, Settings)>)
    ensures r.Err? <==> b.transformation.None?
    ensures r.Err? ==> r.error == IllegalArgument
    ensures r.Ok? ==> r.value == (b.transformation.value, b.table, b.settings)
  {
    if b.transformation.None? then Err(IllegalArgument)
    else Ok((b.transformation.value, b.table, b.settings))
  }
}
