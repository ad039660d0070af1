/**
 * The flow-calibration dataset: the network's nodes and links get dense
 * indices in document order, every link gets a 24-hour target row from the
 * counts file, the nodes are grouped by their cluster label, the traffic
 * assignment matrix is loaded from a cache file or computed once, and the
 * clusters are written one line each. XML parsing, KMeans, the
 * centroid search and the matrix builder itself are inputs: the parsed
 * elements in document order, the labels, the centroid indices and an
 * opaque function for the matrix.
 */
module FlowSimDataset {
  import opened Wrappers
  import opened Text
  import opened Sorting

  /** A `<node>` with its id and coordinates, a `<link>` with its id and end nodes. */
  datatype Node = Node(id: string, x: real, y: real)
  datatype Link = Link(id: string, from: string, to: string)

  /** A `<count>` of the counts file: its loc_id and the val attributes of its `<volume>`s in document order. */
  datatype CountRecord = CountRecord(locId: string, vals: seq<string>)

  /** A Python dict from link id to volumes, with its keys in insertion order. */
  datatype SensorFlows = SensorFlows(volumes: map<string, seq<int>>, keys: seq<string>)

  // ---------------------------------------------------------------------------
  // The counts file
  // ---------------------------------------------------------------------------

  /** int() of every val of one count, in document order; the first unreadable one raises ValueError. */
  function VolumeValues(vals: seq<string>): (r: Result<seq<int>>)
    ensures r.Ok? ==> |r.value| == |vals| && forall h :: 0 <= h < |vals| ==> ParseInt(vals[h]) == Some(r.value[h])
    ensures r.Ok? <==> forall h :: 0 <= h < |vals| ==> ParseInt(vals[h]).Some?
    ensures r.Err? ==> exists h :: 0 <= h < |vals| && ParseInt(vals[h]).None? && r.error == ValueError(vals[h])
  {
    if vals == [] then Ok([])
    else
      var last := vals[|vals| - 1];
      match VolumeValues(vals[..|vals| - 1])
      case Err(e) => Err(e)
      case Ok(prefix) =>
        match ParseInt(last)
        case None => Err(ValueError(last))
        case Some(v) => Ok(prefix + [v])
  }

  /** The volumes of the counts read so far: a later count with the same loc_id replaces the earlier one, keeping its place among the keys. */
  function ReadFlows(counts: seq<CountRecord>): (r: Result<SensorFlows>)
    ensures r.Ok? ==> r.value.volumes.Keys == set i | 0 <= i < |counts| :: counts[i].locId
    ensures r.Ok? ==> forall k :: k in r.value.keys <==> k in r.value.volumes
    ensures r.Ok? ==> forall i, j :: 0 <= i < j < |r.value.keys| ==> r.value.keys[i] != r.value.keys[j]
  {
    if counts == [] then Ok(SensorFlows(map[], []))
    else
      var c := counts[|counts| - 1];
      match ReadFlows(counts[..|counts| - 1])
      case Err(e) => Err(e)
      case Ok(f) =>
        match VolumeValues(c.vals)
        case Err(e) => Err(e)
        case Ok(vols) =>
          var keys := if c.locId in f.volumes then f.keys else f.keys + [c.locId];
          assert forall i :: 0 <= i < |counts| - 1 ==> counts[..|counts| - 1][i] == counts[i];
          Ok(SensorFlows(f.volumes[c.locId := vols], keys))
  }

  /** The last count with a given loc_id decides that link's volumes. */
  lemma {:induction false} LastCountWins(counts: seq<CountRecord>, i: int)
    requires 0 <= i < |counts| && ReadFlows(counts).Ok?
    requires forall j :: i < j < |counts| ==> counts[j].locId != counts[i].locId
    ensures VolumeValues(counts[i].vals).Ok?
    ensures ReadFlows(counts).value.volumes[counts[i].locId] == VolumeValues(counts[i].vals).value
  {
    var prefix := counts[..|counts| - 1];
    if i < |counts| - 1 {
      assert prefix[i] == counts[i];
      assert forall j :: i < j < |prefix| ==> prefix[j] == counts[j];
      LastCountWins(prefix, i);
    }
  }

  /** Reading the counts file is stopped by the first unreadable value. */
  method ReadSensorFlows(counts: seq<CountRecord>) returns (r: Result<SensorFlows>)
    ensures r == ReadFlows(counts)
  {
    var flows := SensorFlows(map[], []);
    var i := 0;
    while i < |counts|
      invariant 0 <= i <= |counts|
      invariant ReadFlows(counts[..i]) == Ok(flows)
    {
      assert counts[..i + 1][..i] == counts[..i];
      var vols := ReadVolumes(counts[i].vals);
      if vols.Err? {
        ReadFlowsErrSticks(counts, i + 1);
        return Err(vols.error);
      }
      var id := counts[i].locId;
      var keys := if id in flows.volumes then flows.keys else flows.keys + [id];
      flows := SensorFlows(flows.volumes[id := vols.value], keys);
      i := i + 1;
    }
    assert counts[..i] == counts;
    r := Ok(flows);
  }

  /** The inner loop over one count's `<volume>` elements. */
  method ReadVolumes(vals: seq<string>) returns (r: Result<seq<int>>)
    ensures r == VolumeValues(vals)
  {
    var vols := [];
    var h := 0;
    while h < |vals|
      invariant 0 <= h <= |vals|
      invariant VolumeValues(vals[..h]) == Ok(vols)
    {
      assert vals[..h + 1][..h] == vals[..h];
      var v := ParseInt(vals[h]);
      if v.None? {
        VolumeValuesErrSticks(vals, h + 1);
        return Err(ValueError(vals[h]));
      }
      vols := vols + [v.value];
      h := h + 1;
    }
    assert vals[..h] == vals;
    r := Ok(vols);
  }

  lemma {:induction false} VolumeValuesErrSticks(vals: seq<string>, n: int)
    requires 0 <= n <= |vals| && VolumeValues(vals[..n]).Err?
    ensures VolumeValues(vals) == VolumeValues(vals[..n])
    decreases |vals| - n
  {
    if n < |vals| {
      assert vals[..n + 1][..n] == vals[..n];
      VolumeValuesErrSticks(vals, n + 1);
    } else {
      assert vals[..n] == vals;
    }
  }

  lemma {:induction false} ReadFlowsErrSticks(counts: seq<CountRecord>, n: int)
    requires 0 <= n <= |counts| && ReadFlows(counts[..n]).Err?
    ensures ReadFlows(counts) == ReadFlows(counts[..n])
    decreases |counts| - n
  {
    if n < |counts| {
      assert counts[..n + 1][..n] == counts[..n];
      ReadFlowsErrSticks(counts, n + 1);
    } else {
      assert counts[..n] == counts;
    }
  }

  // ---------------------------------------------------------------------------
  // Dense indices (bidict assignment in document order)
  // ---------------------------------------------------------------------------

  function NodeIds(nodes: seq<Node>): (ids: seq<string>)
    ensures |ids| == |nodes| && forall i :: 0 <= i < |nodes| ==> ids[i] == nodes[i].id
  {
    seq(|nodes|, i requires 0 <= i < |nodes| => nodes[i].id)
  }

  function LinkIds(links: seq<Link>): (ids: seq<string>)
    ensures |ids| == |links| && forall i :: 0 <= i < |links| ==> ids[i] == links[i].id
  {
    seq(|links|, i requires 0 <= i < |links| => links[i].id)
  }

  /**
   * The bidict after `mapping[ids[i]] = i` for i = 0, 1, ...: a repeated id
   * moves to its later index. Every key maps back to an index holding it.
   */
  function Indexing(ids: seq<string>): (m: map<string, int>)
    ensures m.Keys == set i | 0 <= i < |ids| :: ids[i]
    ensures forall k :: k in m ==> 0 <= m[k] < |ids| && ids[m[k]] == k
  {
    if ids == [] then map[]
    else
      var prefix := ids[..|ids| - 1];
      assert forall i :: 0 <= i < |ids| - 1 ==> prefix[i] == ids[i];
      Indexing(prefix)[ids[|ids| - 1] := |ids| - 1]
  }

  /** One more id takes the next index. */
  lemma IndexingStep(ids: seq<string>, id: string)
    ensures Indexing(ids + [id]) == Indexing(ids)[id := |ids|]
  {
    assert (ids + [id])[..|ids|] == ids;
  }

  lemma LinkIdsStep(links: seq<Link>, k: int)
    requires 0 <= k < |links|
    ensures LinkIds(links[..k + 1]) == LinkIds(links[..k]) + [links[k].id]
  {
  }

  /** The link index after the k-th link. */
  function NextIndex(m: map<string, int>, links: seq<Link>, k: int): (r: map<string, int>)
    requires 0 <= k < |links| && m == Indexing(LinkIds(links[..k]))
    ensures r == Indexing(LinkIds(links[..k + 1]))
  {
    LinkIdsStep(links, k);
    IndexingStep(LinkIds(links[..k]), links[k].id);
    m[links[k].id := k]
  }

  predicate Distinct<T(==)>(ids: seq<T>) {
    forall i, j :: 0 <= i < j < |ids| ==> ids[i] != ids[j]
  }

  /** With distinct ids the i-th id gets index i: a bijection onto 0..|ids|-1. */
  lemma {:induction false} IndexingBijective(ids: seq<string>)
    requires Distinct(ids)
    ensures forall i :: 0 <= i < |ids| ==> Indexing(ids)[ids[i]] == i
    ensures forall k1, k2 :: k1 in Indexing(ids) && k2 in Indexing(ids) && Indexing(ids)[k1] == Indexing(ids)[k2] ==> k1 == k2
  {
    if ids != [] {
      var prefix := ids[..|ids| - 1];
      IndexingBijective(prefix);
      forall i | 0 <= i < |ids| ensures Indexing(ids)[ids[i]] == i {
        if i < |ids| - 1 {
          assert prefix[i] == ids[i];
        }
      }
    }
  }

  /** The bidict's inverse: index i has a key exactly when the i-th id was not moved to a later index. */
  function Inverse(ids: seq<string>, i: int): (r: Result<string>)
    ensures r.Ok? ==> r.value in Indexing(ids) && Indexing(ids)[r.value] == i
    ensures (exists k :: k in Indexing(ids) && Indexing(ids)[k] == i) ==> r.Ok?
  {
    if 0 <= i < |ids| && Indexing(ids)[ids[i]] == i then Ok(ids[i]) else Err(KeyError(IntToString(i)))
  }

  /** node_coords after `node_coords[id] = (x, y)` for every node in order. */
  function Coordinates(nodes: seq<Node>): (m: map<string, (real, real)>)
    ensures m.Keys == Indexing(NodeIds(nodes)).Keys
  {
    if nodes == [] then map[]
    else
      var n := nodes[|nodes| - 1];
      assert NodeIds(nodes[..|nodes| - 1]) == NodeIds(nodes)[..|nodes| - 1];
      Coordinates(nodes[..|nodes| - 1])[n.id := (n.x, n.y)]
  }

  /** The node loop: every node is indexed and its coordinates recorded. */
  /** One more node: its id is appended, takes the next index and gets its coordinates. */
  lemma NodesStep(nodes: seq<Node>, i: nat)
    requires i < |nodes|
    ensures NodeIds(nodes[..i + 1]) == NodeIds(nodes[..i]) + [nodes[i].id]
    ensures Indexing(NodeIds(nodes[..i + 1])) == Indexing(NodeIds(nodes[..i]))[nodes[i].id := i]
    ensures Coordinates(nodes[..i + 1]) == Coordinates(nodes[..i])[nodes[i].id := (nodes[i].x, nodes[i].y)]
  {
    assert nodes[..i + 1][..i] == nodes[..i];
    assert NodeIds(nodes[..i + 1]) == NodeIds(nodes[..i]) + [nodes[i].id];
    IndexingStep(NodeIds(nodes[..i]), nodes[i].id);
  }

  method IndexNodes(nodes: seq<Node>) returns (index: map<string, int>, ids: seq<string>, coords: map<string, (real, real)>)
    ensures ids == NodeIds(nodes) && index == Indexing(ids) && coords == Coordinates(nodes)
  {
    index, ids, coords := map[], [], map[];
    var i := 0;
    while i < |nodes|
      invariant 0 <= i <= |nodes|
      invariant ids == NodeIds(nodes[..i]) && index == Indexing(ids) && coords == Coordinates(nodes[..i])
    {
      NodesStep(nodes, i);
      var node := nodes[i];
      ids := ids + [node.id];
      index := index[node.id := i];
      coords := coords[node.id := (node.x, node.y)];
      i := i + 1;
    }
    assert nodes[..i] == nodes;
  }

  // ---------------------------------------------------------------------------
  // Links: edge list and targets
  // ---------------------------------------------------------------------------

  /** Both ends of every link looked up in the node index; the first missing node id raises KeyError. */
  function Edges(links: seq<Link>, index: map<string, int>): (r: Result<seq<(int, int)>>)
    ensures r.Ok? <==> forall k :: 0 <= k < |links| ==> links[k].from in index && links[k].to in index
    ensures r.Ok? ==> |r.value| == |links|
    ensures r.Ok? ==> forall k :: 0 <= k < |links| ==> r.value[k] == (index[links[k].from], index[links[k].to])
  {
    if links == [] then Ok([])
    else
      var l := links[|links| - 1];
      assert forall k :: 0 <= k < |links| - 1 ==> links[..|links| - 1][k] == links[k];
      match Edges(links[..|links| - 1], index)
      case Err(e) => Err(e)
      case Ok(prefix) =>
        if l.from !in index then Err(KeyError(l.from))
        else if l.to !in index then Err(KeyError(l.to))
        else Ok(prefix + [(index[l.from], index[l.to])])
  }

  /** The target row of a link no count names: 24 zeros. */
  function NoCounts(): (row: seq<int>)
    ensures |row| == 24 && forall h :: 0 <= h < 24 ==> row[h] == 0
  {
    seq(24, h => 0)
  }

  /** A link's target row: the volumes counted for its id, or no counts. */
  function Target(link: Link, volumes: map<string, seq<int>>): seq<int> {
    if link.id in volumes then volumes[link.id] else NoCounts()
  }

  /** The target rows of the links, in link order. */
  function Targets(links: seq<Link>, volumes: map<string, seq<int>>): (rows: seq<seq<int>>)
    ensures |rows| == |links| && forall k :: 0 <= k < |links| ==> rows[k] == Target(links[k], volumes)
  {
    seq(|links|, k requires 0 <= k < |links| => Target(links[k], volumes))
  }

  /** torch.tensor(edge_attr) builds a matrix only when every row is as long as the first. */
  predicate Rectangular(rows: seq<seq<int>>) {
    forall k :: 0 <= k < |rows| ==> |rows[k]| == |rows[0]|
  }

  /** A count with other than 24 volumes beside an uncounted link makes the rows ragged. */
  lemma ShortCountRagged(links: seq<Link>, volumes: map<string, seq<int>>, i: nat, j: nat)
    requires i < |links| && j < |links|
    requires links[i].id in volumes && |volumes[links[i].id]| != 24 && links[j].id !in volumes
    ensures !Rectangular(Targets(links, volumes))
  {
    var rows := Targets(links, volumes);
    assert |rows[i]| != 24 && |rows[j]| == 24;
  }

  /** When every count has 24 volumes, the rows form a matrix with 24 columns. */
  lemma FullCountsRectangular(links: seq<Link>, volumes: map<string, seq<int>>)
    requires forall id :: id in volumes ==> |volumes[id]| == 24
    ensures Rectangular(Targets(links, volumes))
    ensures forall k :: 0 <= k < |links| ==> |Targets(links, volumes)[k]| == 24
  {
  }

  /** The target rows after the k-th link. */
  function NextTargets(rows: seq<seq<int>>, links: seq<Link>, volumes: map<string, seq<int>>, k: int): (r: seq<seq<int>>)
    requires 0 <= k < |links| && rows == Targets(links[..k], volumes)
    ensures r == Targets(links[..k + 1], volumes)
  {
    rows + [Target(links[k], volumes)]
  }

  /** One more link: its pair is appended, or its missing end is the error. */
  lemma EdgesStep(links: seq<Link>, index: map<string, int>, k: int)
    requires 0 <= k < |links| && Edges(links[..k], index).Ok?
    ensures links[k].from !in index ==> Edges(links[..k + 1], index) == Err(KeyError(links[k].from))
    ensures links[k].from in index && links[k].to !in index ==> Edges(links[..k + 1], index) == Err(KeyError(links[k].to))
    ensures links[k].from in index && links[k].to in index ==>
      Edges(links[..k + 1], index) == Ok(Edges(links[..k], index).value + [(index[links[k].from], index[links[k].to])])
  {
    assert links[..k + 1][..k] == links[..k];
  }

  lemma {:induction false} EdgesErrSticks(links: seq<Link>, index: map<string, int>, n: int)
    requires 0 <= n <= |links| && Edges(links[..n], index).Err?
    ensures Edges(links, index) == Edges(links[..n], index)
    decreases |links| - n
  {
    if n < |links| {
      assert links[..n + 1][..n] == links[..n];
      EdgesErrSticks(links, index, n + 1);
    } else {
      assert links[..n] == links;
    }
  }

  /** The link loop: edges in document order, a dense link index and one target row per link. */
  method IndexLinks(links: seq<Link>, index: map<string, int>, volumes: map<string, seq<int>>)
    returns (edges: Result<seq<(int, int)>>, edgeIndex: map<string, int>, targets: seq<seq<int>>)
    ensures edges == Edges(links, index)
    ensures edges.Ok? ==> edgeIndex == Indexing(LinkIds(links))
    ensures edges.Ok? ==> targets == Targets(links, volumes)
  {
    var pairs: seq<(int, int)> := [];
    edgeIndex, targets := map[], [];
    var k := 0;
    while k < |links|
      invariant 0 <= k <= |links|
      invariant Edges(links[..k], index) == Ok(pairs)
      invariant edgeIndex == Indexing(LinkIds(links[..k]))
      invariant targets == Targets(links[..k], volumes)
    {
      EdgesStep(links, index, k);
      var link := links[k];
      if link.from !in index {
        assert Edges(links, index) == Err(KeyError(link.from)) by {
          EdgesErrSticks(links, index, k + 1);
        }
        return Err(KeyError(link.from)), edgeIndex, targets;
      }
      if link.to !in index {
        assert Edges(links, index) == Err(KeyError(link.to)) by {
          EdgesErrSticks(links, index, k + 1);
        }
        return Err(KeyError(link.to)), edgeIndex, targets;
      }
      pairs := pairs + [(index[link.from], index[link.to])];
      edgeIndex := NextIndex(edgeIndex, links, k);
      targets := NextTargets(targets, links, volumes, k);
      k := k + 1;
    }
    assert links[..k] == links;
    edges := Ok(pairs);
  }

  /** sensor_idxs: the link index of every counted loc_id in key order; a loc_id that is not a link raises KeyError. */
  function SensorIndices(keys: seq<string>, edgeIndex: map<string, int>): (r: Result<seq<int>>)
    ensures r.Ok? <==> forall i :: 0 <= i < |keys| ==> keys[i] in edgeIndex
    ensures r.Ok? ==> |r.value| == |keys| && forall i :: 0 <= i < |keys| ==> r.value[i] == edgeIndex[keys[i]]
    ensures r.Err? ==> exists i :: 0 <= i < |keys| && keys[i] !in edgeIndex && r.error == KeyError(keys[i])
  {
    if keys == [] then Ok([])
    else
      var rest := SensorIndices(keys[1..], edgeIndex);
      if keys[0] !in edgeIndex then Err(KeyError(keys[0]))
      else match rest
        case Err(e) => Err(e)
        case Ok(tail) => Ok([edgeIndex[keys[0]]] + tail)
  }

  // ---------------------------------------------------------------------------
  // Clusters
  // ---------------------------------------------------------------------------

  /** The node indices with label l, in ascending order: node x is in it exactly when x has label l. */
  function Members(labels: seq<int>, l: int): (r: seq<int>)
    ensures forall i :: 0 <= i < |r| ==> 0 <= r[i] < |labels| && labels[r[i]] == l
    ensures forall x :: x in r <==> 0 <= x < |labels| && labels[x] == l
    ensures l !in labels ==> r == []
    ensures forall i, j :: 0 <= i < j < |r| ==> r[i] < r[j]
  {
    if labels == [] then []
    else
      var n := |labels| - 1;
      var prev := Members(labels[..n], l);
      MembersExtend(labels, l, prev);
      prev + (if labels[n] == l then [n] else [])
  }

  /** The facts Members promises, carried from the labels before the last node to all of them. */
  lemma MembersExtend(labels: seq<int>, l: int, prev: seq<int>)
    requires |labels| > 0
    requires forall i :: 0 <= i < |prev| ==> 0 <= prev[i] < |labels| - 1 && labels[prev[i]] == l
    requires forall x :: x in prev <==> 0 <= x < |labels| - 1 && labels[x] == l
    requires l !in labels[..|labels| - 1] ==> prev == []
    requires forall i, j :: 0 <= i < j < |prev| ==> prev[i] < prev[j]
    ensures var r := prev + (if labels[|labels| - 1] == l then [|labels| - 1] else []);
      && (forall i :: 0 <= i < |r| ==> 0 <= r[i] < |labels| && labels[r[i]] == l)
      && (forall x :: x in r <==> 0 <= x < |labels| && labels[x] == l)
      && (l !in labels ==> r == [])
      && (forall i, j :: 0 <= i < j < |r| ==> r[i] < r[j])
  {
    var n := |labels| - 1;
    assert labels == labels[..n] + [labels[n]];
  }

  /** The labels in the order they first occur: the cluster dict's keys before the re-sort. */
  function LabelOrder(labels: seq<int>): (r: seq<int>)
    ensures forall i, j :: 0 <= i < j < |r| ==> r[i] != r[j]
    ensures forall l :: l in r <==> l in labels
  {
    if labels == [] then []
    else
      var n := |labels| - 1;
      var prefix := LabelOrder(labels[..n]);
      assert labels == labels[..n] + [labels[n]];
      if labels[n] in prefix then prefix else prefix + [labels[n]]
  }

  lemma MembersStep(labels: seq<int>, idx: int, l: int)
    requires 0 <= idx < |labels|
    ensures Members(labels[..idx + 1], l) == Members(labels[..idx], l) + (if labels[idx] == l then [idx] else [])
  {
    assert labels[..idx + 1][..idx] == labels[..idx];
  }

  /** The cluster dict built by appending each node index to its label's list, with its keys in insertion order. */
  method GroupLabels(labels: seq<int>) returns (clusters: map<int, seq<int>>, keys: seq<int>)
    ensures forall l :: l in clusters <==> l in labels
    ensures forall l :: l in clusters ==> clusters[l] == Members(labels, l)
    ensures keys == LabelOrder(labels)
  {
    clusters, keys := map[], [];
    var idx := 0;
    while idx < |labels|
      invariant 0 <= idx <= |labels|
      invariant forall l :: l in clusters <==> l in labels[..idx]
      invariant forall l :: l in clusters ==> clusters[l] == Members(labels[..idx], l)
      invariant keys == LabelOrder(labels[..idx])
    {
      var lab := labels[idx];
      assert labels[..idx + 1] == labels[..idx] + [lab];
      assert labels[..idx + 1][..idx] == labels[..idx];
      if lab !in clusters {
        clusters := clusters[lab := []];
        keys := keys + [lab];
      }
      forall l | l in clusters {
        MembersStep(labels, idx, l);
      }
      clusters := clusters[lab := clusters[lab] + [idx]];
      idx := idx + 1;
    }
    assert labels[..idx] == labels;
  }

  // ---------------------------------------------------------------------------
  // The clusters file
  // ---------------------------------------------------------------------------

  /** Each string followed by the terminator c. */
  function Terminated(xs: seq<string>, c: char): string {
    if xs == [] then "" else xs[0] + [c] + Terminated(xs[1..], c)
  }

  lemma {:induction false} TerminatedSnoc(xs: seq<string>, x: string, c: char)
    ensures Terminated(xs + [x], c) == Terminated(xs, c) + x + [c]
  {
    if xs != [] {
      assert (xs + [x])[1..] == xs[1..] + [x];
      TerminatedSnoc(xs[1..], x, c);
    }
  }

  /** Terminated strings are the fields of a join with one empty field at the end. */
  lemma {:induction false} TerminatedJoin(xs: seq<string>, c: char)
    ensures Terminated(xs, c) == Join(xs + [""], [c])
  {
    if xs != [] {
      assert (xs + [""])[1..] == xs[1..] + [""];
      TerminatedJoin(xs[1..], c);
    }
  }

  /** Splitting terminated strings that do not contain the terminator gives them back, and an empty last field. */
  lemma TerminatedFields(xs: seq<string>, c: char)
    requires forall i :: 0 <= i < |xs| ==> Free(xs[i], c)
    ensures Fields(Terminated(xs, c), [c]) == xs + [""]
  {
    TerminatedJoin(xs, c);
    FieldsOfJoin(xs + [""], c);
  }

  /** The original node ids of a cluster's members, through the bidict's inverse; the first missing index raises KeyError. */
  function MemberIds(ids: seq<string>, members: seq<int>): (r: Result<seq<string>>)
    ensures r.Ok? <==> forall i :: 0 <= i < |members| ==> Inverse(ids, members[i]).Ok?
    ensures r.Ok? ==> |r.value| == |members| && forall i :: 0 <= i < |members| ==> Inverse(ids, members[i]) == Ok(r.value[i])
  {
    if members == [] then Ok([])
    else
      var n := |members| - 1;
      assert forall i :: 0 <= i < n ==> members[..n][i] == members[i];
      match MemberIds(ids, members[..n])
      case Err(e) => Err(e)
      case Ok(prefix) =>
        match Inverse(ids, members[n])
        case Err(e) => Err(e)
        case Ok(id) => Ok(prefix + [id])
  }

  /** One line of the clusters file, without its newline: the label, a colon, and each member's id followed by a comma. */
  function ClusterLine(lab: int, names: seq<string>): string {
    IntToString(lab) + ":" + Terminated(names, ',')
  }

  /** The lines of the clusters in the given order. */
  function ClusterLines(net: Network, order: seq<int>): (r: Result<seq<string>>)
    ensures r.Ok? ==> |r.value| == |order|
  {
    if order == [] then Ok([])
    else
      var l := order[|order| - 1];
      match ClusterLines(net, order[..|order| - 1])
      case Err(e) => Err(e)
      case Ok(prefix) =>
        if l !in net.clusters then Err(KeyError(IntToString(l)))
        else match MemberIds(net.nodeIds, net.clusters[l])
          case Err(e) => Err(e)
          case Ok(names) => Ok(prefix + [ClusterLine(l, names)])
  }

  /** The text save_clusters writes: one line per cluster in the dict's order. */
  function ClustersText(net: Network): Result<string> {
    match ClusterLines(net, net.clusterOrder)
    case Err(e) => Err(e)
    case Ok(lines) => Ok(Terminated(lines, '\n'))
  }

  /** A printed integer holds no colon. */
  lemma IntToStringFree(i: int, c: char)
    requires c != '-' && !IsDigitChar(c)
    ensures Free(IntToString(i), c)
  {
    if i < 0 {
      assert IntToString(i) == "-" + NatToString(-i);
    }
  }

  /** A line reads back: the label before the first colon, and the member ids as the comma-separated fields after it. */
  lemma ClusterLineReadBack(lab: int, names: seq<string>)
    requires forall i :: 0 <= i < |names| ==> Free(names[i], ',')
    ensures var line := ClusterLine(lab, names);
      var k := IndexOf(line, ":");
      && k == |IntToString(lab)|
      && ParseInt(line[..k]) == Some(lab)
      && Fields(line[k + 1..], ",") == names + [""]
  {
    var line := ClusterLine(lab, names);
    var head := IntToString(lab);
    IntToStringFree(lab, ':');
    DelimAfterField(head, ':', Terminated(names, ','));
    assert line[..|head|] == head;
    assert line[|head| + 1..] == Terminated(names, ',');
    IntRoundTrip(lab);
    TerminatedFields(names, ',');
  }

  // ---------------------------------------------------------------------------
  // The plans file
  // ---------------------------------------------------------------------------

  /** The random choices of one person: an origin member, a destination member and a minute. */
  datatype Draw = Draw(origin: nat, destination: nat, minute: nat)

  /** One generated agent: home at the origin until the start time, a car leg, then at the destination until the end time. */
  datatype Person = Person(id: int, origin: (real, real), destination: (real, real), hour: int, endHour: int, minute: int)

  /** Two digits, zero-padded below ten. */
  function Pad2(n: nat): string {
    if n < 10 then "0" + NatToString(n) else NatToString(n)
  }

  /** "HH:MM:00". */
  function Clock(hour: nat, minute: nat): string {
    Pad2(hour) + ":" + Pad2(minute) + ":00"
  }

  function StartTime(p: Person): string
    requires p.hour >= 0 && p.minute >= 0
  {
    Clock(p.hour, p.minute)
  }

  function EndTime(p: Person): string
    requires p.endHour >= 0 && p.minute >= 0
  {
    Clock(p.endHour, p.minute)
  }

  lemma Pad2ReadBack(n: nat)
    requires n < 100
    ensures |Pad2(n)| == 2 && ParseNat(Pad2(n)) == Some(n)
  {
    if n < 10 {
      var s := Pad2(n);
      assert s[..1] == "0" && s[..1][..0] == [];
      assert DigitsValue(s) == DigitsValue(s[..1]) * 10 + n;
    } else {
      assert NatToString(n) == NatToString(n / 10) + [DigitChar(n % 10)];
      NatRoundTrip(n);
    }
  }

  /** A clock string is eight characters and gives the hour and the minute back. */
  lemma ClockReadBack(hour: nat, minute: nat)
    requires hour < 100 && minute < 100
    ensures var s := Clock(hour, minute);
      |s| == 8 && ParseNat(s[..2]) == Some(hour) && s[2] == ':' && ParseNat(s[3..5]) == Some(minute) && s[5..] == ":00"
  {
    Pad2ReadBack(hour);
    Pad2ReadBack(minute);
    var s := Clock(hour, minute);
    assert s[..2] == Pad2(hour);
    assert s[3..5] == Pad2(minute);
  }

  /** random.choice, with the draw reduced to the list's length. */
  function Pick(members: seq<int>, draw: nat): int
    requires |members| > 0
  {
    members[draw % |members|]
  }

  /** The node id at index i through the dataset's own node bidict's inverse. */
  function NodeAt(net: Network, i: int): Result<string> {
    if 0 <= i < |net.nodeIds| && net.nodeIds[i] in net.nodeIndex && net.nodeIndex[net.nodeIds[i]] == i
    then Ok(net.nodeIds[i])
    else Err(KeyError(IntToString(i)))
  }

  /** In a parsed network that lookup is the inverse of the node indexing. */
  lemma NodeAtIsInverse(net: Network, i: int)
    requires net.nodeIndex == Indexing(net.nodeIds)
    ensures NodeAt(net, i) == Inverse(net.nodeIds, i)
  {
  }

  /**
   * The person with the given id for cluster pair (c1, c2) at the given hour:
   * an origin node drawn from c1 and a destination node from c2, looked up
   * through the bidict's inverse and the node coordinates.
   */
  function NewPerson(net: Network, id: int, c1: int, c2: int, hour: int, d: Draw): Result<Person> {
    if c1 !in net.clusters then Err(KeyError(IntToString(c1)))
    else if |net.clusters[c1]| == 0 then Err(IndexError)
    else if c2 !in net.clusters then Err(KeyError(IntToString(c2)))
    else if |net.clusters[c2]| == 0 then Err(IndexError)
    else
      match NodeAt(net, Pick(net.clusters[c1], d.origin))
      case Err(e) => Err(e)
      case Ok(from) =>
        match NodeAt(net, Pick(net.clusters[c2], d.destination))
        case Err(e) => Err(e)
        case Ok(to) =>
          if from !in net.nodeCoords then Err(KeyError(from))
          else if to !in net.nodeCoords then Err(KeyError(to))
          else Ok(Person(id, net.nodeCoords[from], net.nodeCoords[to], hour, (hour + 8) % 24, d.minute % 60))
  }

  /** The persons so far, and one more numbered after them; a failure stays. */
  function AddPerson(acc: Result<seq<Person>>, net: Network, draws: int -> Draw, c1: int, c2: int, hour: int): Result<seq<Person>> {
    if acc.Err? then acc
    else
      var id := |acc.value| + 1;
      match NewPerson(net, id, c1, c2, hour, draws(id))
      case Err(e) => Err(e)
      case Ok(p) => Ok(acc.value + [p])
  }

  function AddPersons(acc: Result<seq<Person>>, net: Network, draws: int -> Draw, c1: int, c2: int, hour: int, n: nat): Result<seq<Person>> {
    if n == 0 then acc else AddPerson(AddPersons(acc, net, draws, c1, c2, hour, n - 1), net, draws, c1, c2, hour)
  }

  /** The persons of one cell: the flow truncated toward zero, none when that is negative. */
  function Trips(x: real): (n: nat)
    ensures x >= 0.0 ==> n as real <= x < n as real + 1.0
    ensures x < 1.0 ==> n == 0
  {
    if Trunc(x) > 0 then Trunc(x) else 0
  }

  /** The flows tensor has shape (z1, z2, hours). */
  predicate Shape(flows: seq<seq<seq<real>>>, z2: nat, hours: nat) {
    forall c1 :: 0 <= c1 < |flows| ==> |flows[c1]| == z2 && forall c2 :: 0 <= c2 < z2 ==> |flows[c1][c2]| == hours
  }

  /** The hours 0..h-1 of cell pair (c1, c2). */
  function HourPlans(acc: Result<seq<Person>>, net: Network, flows: seq<seq<seq<real>>>, z2: nat, hours: nat, draws: int -> Draw,
                     c1: int, c2: int, h: nat): Result<seq<Person>>
    requires Shape(flows, z2, hours) && 0 <= c1 < |flows| && 0 <= c2 < z2 && h <= hours
  {
    if h == 0 then acc
    else AddPersons(HourPlans(acc, net, flows, z2, hours, draws, c1, c2, h - 1), net, draws, c1, c2, h - 1, Trips(flows[c1][c2][h - 1]))
  }

  /** The destinations 0..c2-1 of origin cluster c1. */
  function DestinationPlans(acc: Result<seq<Person>>, net: Network, flows: seq<seq<seq<real>>>, z2: nat, hours: nat, draws: int -> Draw,
                            c1: int, c2: nat): Result<seq<Person>>
    requires Shape(flows, z2, hours) && 0 <= c1 < |flows| && c2 <= z2
  {
    if c2 == 0 then acc
    else HourPlans(DestinationPlans(acc, net, flows, z2, hours, draws, c1, c2 - 1), net, flows, z2, hours, draws, c1, c2 - 1, hours)
  }

  /** The origins 0..c1-1: every person save_plans_from_flow_res creates, in loop order. */
  function Plans(net: Network, flows: seq<seq<seq<real>>>, z2: nat, hours: nat, draws: int -> Draw, c1: nat): Result<seq<Person>>
    requires Shape(flows, z2, hours) && c1 <= |flows|
  {
    if c1 == 0 then Ok([])
    else DestinationPlans(Plans(net, flows, z2, hours, draws, c1 - 1), net, flows, z2, hours, draws, c1 - 1, z2)
  }

  /** The trips of the hours 0..h-1 of a cell pair, of its first c2 destinations, and of its first c1 origins. */
  function HourTrips(flows: seq<seq<seq<real>>>, z2: nat, hours: nat, c1: int, c2: int, h: nat): nat
    requires Shape(flows, z2, hours) && 0 <= c1 < |flows| && 0 <= c2 < z2 && h <= hours
  {
    if h == 0 then 0 else HourTrips(flows, z2, hours, c1, c2, h - 1) + Trips(flows[c1][c2][h - 1])
  }

  function DestinationTrips(flows: seq<seq<seq<real>>>, z2: nat, hours: nat, c1: int, c2: nat): nat
    requires Shape(flows, z2, hours) && 0 <= c1 < |flows| && c2 <= z2
  {
    if c2 == 0 then 0 else DestinationTrips(flows, z2, hours, c1, c2 - 1) + HourTrips(flows, z2, hours, c1, c2 - 1, hours)
  }

  function TotalTrips(flows: seq<seq<seq<real>>>, z2: nat, hours: nat, c1: nat): nat
    requires Shape(flows, z2, hours) && c1 <= |flows|
  {
    if c1 == 0 then 0 else TotalTrips(flows, z2, hours, c1 - 1) + DestinationTrips(flows, z2, hours, c1 - 1, z2)
  }

  /** Persons numbered 1, 2, 3, ... in order, each ending eight hours (mod 24) after its start, at a minute below 60. */
  predicate Numbered(ps: seq<Person>, hours: nat) {
    forall i :: 0 <= i < |ps| ==>
      && ps[i].id == i + 1 && 0 <= ps[i].hour < hours
      && ps[i].endHour == (ps[i].hour + 8) % 24 && 0 <= ps[i].minute < 60
  }

  /** One more person: numbered after the earlier ones, with its end hour eight hours on. */
  lemma AddPersonStep(acc: Result<seq<Person>>, net: Network, draws: int -> Draw, c1: int, c2: int, hour: int, hours: nat)
    requires 0 <= hour < hours
    ensures Grows(acc, AddPerson(acc, net, draws, c1, c2, hour), 1, hours)
  {
    var r := AddPerson(acc, net, draws, c1, c2, hour);
    if r.Ok? && Numbered(acc.value, hours) {
      var id := |acc.value| + 1;
      var p := NewPerson(net, id, c1, c2, hour, draws(id)).value;
      assert r.value == acc.value + [p];
      forall i | 0 <= i < |r.value|
        ensures r.value[i].id == i + 1 && 0 <= r.value[i].hour < hours
        ensures r.value[i].endHour == (r.value[i].hour + 8) % 24 && 0 <= r.value[i].minute < 60
      {
        if i < |acc.value| {
          assert r.value[i] == acc.value[i];
        }
      }
    }
  }

  /** A successful r extends acc by exactly k persons and keeps the numbering. */
  ghost predicate Grows(acc: Result<seq<Person>>, r: Result<seq<Person>>, k: nat, hours: nat) {
    r.Ok? ==> acc.Ok? && |r.value| == |acc.value| + k && (Numbered(acc.value, hours) ==> Numbered(r.value, hours))
  }

  lemma GrowsTrans(a: Result<seq<Person>>, b: Result<seq<Person>>, c: Result<seq<Person>>, k1: nat, k2: nat, hours: nat)
    requires Grows(a, b, k1, hours) && Grows(b, c, k2, hours)
    ensures Grows(a, c, k1 + k2, hours)
  {
  }

  /** n more persons: exactly n added, numbered on. */
  lemma {:induction false} AddPersonsCount(acc: Result<seq<Person>>, net: Network, draws: int -> Draw, c1: int, c2: int, hour: int, hours: nat, n: nat)
    requires 0 <= hour < hours
    ensures Grows(acc, AddPersons(acc, net, draws, c1, c2, hour, n), n, hours)
  {
    if n > 0 {
      var prev := AddPersons(acc, net, draws, c1, c2, hour, n - 1);
      AddPersonsCount(acc, net, draws, c1, c2, hour, hours, n - 1);
      AddPersonStep(prev, net, draws, c1, c2, hour, hours);
      assert AddPersons(acc, net, draws, c1, c2, hour, n) == AddPerson(prev, net, draws, c1, c2, hour);
      GrowsTrans(acc, prev, AddPerson(prev, net, draws, c1, c2, hour), n - 1, 1, hours);
    }
  }

  lemma {:induction false} HourPlansCount(acc: Result<seq<Person>>, net: Network, flows: seq<seq<seq<real>>>, z2: nat, hours: nat,
                                          draws: int -> Draw, c1: int, c2: int, h: nat)
    requires Shape(flows, z2, hours) && 0 <= c1 < |flows| && 0 <= c2 < z2 && h <= hours
    ensures Grows(acc, HourPlans(acc, net, flows, z2, hours, draws, c1, c2, h), HourTrips(flows, z2, hours, c1, c2, h), hours)
  {
    if h > 0 {
      var prev := HourPlans(acc, net, flows, z2, hours, draws, c1, c2, h - 1);
      var n := Trips(flows[c1][c2][h - 1]);
      HourPlansCount(acc, net, flows, z2, hours, draws, c1, c2, h - 1);
      AddPersonsCount(prev, net, draws, c1, c2, h - 1, hours, n);
      GrowsTrans(acc, prev, AddPersons(prev, net, draws, c1, c2, h - 1, n), HourTrips(flows, z2, hours, c1, c2, h - 1), n, hours);
    }
  }

  lemma {:induction false} DestinationPlansCount(acc: Result<seq<Person>>, net: Network, flows: seq<seq<seq<real>>>, z2: nat, hours: nat,
                                                 draws: int -> Draw, c1: int, c2: nat)
    requires Shape(flows, z2, hours) && 0 <= c1 < |flows| && c2 <= z2
    ensures Grows(acc, DestinationPlans(acc, net, flows, z2, hours, draws, c1, c2), DestinationTrips(flows, z2, hours, c1, c2), hours)
  {
    if c2 > 0 {
      var prev := DestinationPlans(acc, net, flows, z2, hours, draws, c1, c2 - 1);
      DestinationPlansCount(acc, net, flows, z2, hours, draws, c1, c2 - 1);
      HourPlansCount(prev, net, flows, z2, hours, draws, c1, c2 - 1, hours);
      GrowsTrans(acc, prev, HourPlans(prev, net, flows, z2, hours, draws, c1, c2 - 1, hours),
                 DestinationTrips(flows, z2, hours, c1, c2 - 1), HourTrips(flows, z2, hours, c1, c2 - 1, hours), hours);
    }
  }

  /**
   * Every successful run creates exactly the truncated flows' total of persons,
   * cells with c1 == c2 included, numbered 1, 2, 3, ... in (c1, c2, hour)
   * order, each ending eight hours after its start hour, modulo 24.
   */
  lemma {:induction false} PlansCount(net: Network, flows: seq<seq<seq<real>>>, z2: nat, hours: nat, draws: int -> Draw, c1: nat)
    requires Shape(flows, z2, hours) && c1 <= |flows|
    ensures var r := Plans(net, flows, z2, hours, draws, c1);
      r.Ok? ==> |r.value| == TotalTrips(flows, z2, hours, c1) && Numbered(r.value, hours)
  {
    if c1 > 0 {
      PlansCount(net, flows, z2, hours, draws, c1 - 1);
      DestinationPlansCount(Plans(net, flows, z2, hours, draws, c1 - 1), net, flows, z2, hours, draws, c1 - 1, z2);
    }
  }

  // ---------------------------------------------------------------------------
  // The traffic assignment matrix cache
  // ---------------------------------------------------------------------------

  /** A path as directory and file name. */
  datatype FilePath = FilePath(directory: string, name: string)

  /** The last component of a path with '/' separators. */
  function FileName(p: string): (r: string)
    ensures |r| <= |p|
  {
    p[LastIndexOf(p, "/") + 1..]
  }

  /** pathlib's stem: the file name without its last suffix; a leading dot or a trailing dot is not a suffix. */
  function Stem(p: string): (r: string)
    ensures |r| <= |p|
  {
    var name := FileName(p);
    var dot := LastIndexOf(name, ".");
    if 0 < dot < |name| - 1 then name[..dot] else name
  }

  /** The cache file of a network and a cluster count. */
  function TamFile(outputPath: string, networkPath: string, numClusters: int): FilePath {
    FilePath(outputPath, Stem(networkPath) + "_TAM_nclusters_" + IntToString(numClusters) + ".npz")
  }

  /** Different cluster counts never share a cache file. */
  lemma TamFileSeparatesClusters(outputPath: string, networkPath: string, z1: int, z2: int)
    requires TamFile(outputPath, networkPath, z1) == TamFile(outputPath, networkPath, z2)
    ensures z1 == z2
  {
    var prefix := Stem(networkPath) + "_TAM_nclusters_";
    var s1, s2 := IntToString(z1), IntToString(z2);
    var n1, n2 := prefix + s1 + ".npz", prefix + s2 + ".npz";
    assert |s1| == |s2|;
    assert s1 == n1[|prefix|..|prefix| + |s1|];
    assert s2 == n2[|prefix|..|prefix| + |s2|];
    IntRoundTrip(z1);
    IntRoundTrip(z2);
  }

  /** The matrix as get_TAM returns it (E by Z by Z) and np.load gives it back. */
  type Tam = seq<seq<seq<real>>>

  /** The output directory's .npz files. */
  class Disk {
    var tams: map<FilePath, Tam>
    constructor(files: map<FilePath, Tam>)
      ensures tams == files
    {
      tams := files;
    }
  }

  // ---------------------------------------------------------------------------
  // The dataset
  // ---------------------------------------------------------------------------

  /** What parse_network leaves in the dataset. */
  datatype Network = Network(
    nodeIds: seq<string>, nodeIndex: map<string, int>, nodeCoords: map<string, (real, real)>,
    edges: seq<(int, int)>, edgeIndex: map<string, int>, targets: seq<seq<int>>,
    clusters: map<int, seq<int>>, clusterOrder: seq<int>, sensorIdxs: seq<int>)

  /**
   * The counts are readable, every link's ends are nodes, the target rows
   * are equally long (torch.tensor refuses a ragged list) and every counted
   * loc_id is a link.
   */
  predicate Parses(nodes: seq<Node>, links: seq<Link>, counts: seq<CountRecord>) {
    && ReadFlows(counts).Ok? && Edges(links, Indexing(NodeIds(nodes))).Ok?
    && Rectangular(Targets(links, ReadFlows(counts).value.volumes))
    && SensorIndices(ReadFlows(counts).value.keys, Indexing(LinkIds(links))).Ok?
  }

  /** The network parse_network builds from the parsed elements and the node labels. */
  ghost predicate ParsedFrom(net: Network, nodes: seq<Node>, links: seq<Link>, counts: seq<CountRecord>, labels: seq<int>) {
    && ReadFlows(counts).Ok?
    && net.nodeIds == NodeIds(nodes) && net.nodeIndex == Indexing(net.nodeIds) && net.nodeCoords == Coordinates(nodes)
    && Edges(links, net.nodeIndex) == Ok(net.edges) && net.edgeIndex == Indexing(LinkIds(links))
    && net.targets == Targets(links, ReadFlows(counts).value.volumes)
    && (forall l :: l in net.clusters <==> l in labels)
    && (forall l :: l in net.clusters ==> net.clusters[l] == Members(labels, l))
    && net.clusterOrder == Sort(LabelOrder(labels))
    && SensorIndices(ReadFlows(counts).value.keys, net.edgeIndex) == Ok(net.sensorIdxs)
  }

  /** The relations between the parts of a parsed network that the later steps rely on. */
  ghost predicate Consistent(net: Network) {
    && net.nodeIndex == Indexing(net.nodeIds)
    && net.nodeCoords.Keys == net.nodeIndex.Keys
    && (forall l :: l in net.clusters ==> forall i :: 0 <= i < |net.clusters[l]| ==> 0 <= net.clusters[l][i] < |net.nodeIds|)
    && (forall l :: l in net.clusters <==> l in net.clusterOrder)
    && (forall k :: 0 <= k < |net.edges| ==> 0 <= net.edges[k].0 < |net.nodeIds| && 0 <= net.edges[k].1 < |net.nodeIds|)
    && |net.targets| == |net.edges|
    && (forall i :: 0 <= i < |net.sensorIdxs| ==> 0 <= net.sensorIdxs[i] < |net.edges|)
  }

  /** Every parsed network is consistent: edge ends and sensor indices are in range, every cluster is listed once in order. */
  lemma ParsedConsistent(net: Network, nodes: seq<Node>, links: seq<Link>, counts: seq<CountRecord>, labels: seq<int>)
    requires |labels| == |nodes| && ParsedFrom(net, nodes, links, counts, labels)
    ensures Consistent(net)
  {
    ClustersInRange(net.clusters, labels);
    ClusterOrderListsClusters(net.clusters, net.clusterOrder, labels);
    EdgesInRange(links, net.nodeIds, net.edges);
    SensorIndicesInRange(ReadFlows(counts).value.keys, links, net.sensorIdxs);
  }

  /** Every cluster member is the index of a labelled node. */
  lemma ClustersInRange(clusters: map<int, seq<int>>, labels: seq<int>)
    requires forall l :: l in clusters ==> clusters[l] == Members(labels, l)
    ensures forall l :: l in clusters ==> forall i :: 0 <= i < |clusters[l]| ==> 0 <= clusters[l][i] < |labels|
  {
    forall l | l in clusters ensures forall i :: 0 <= i < |clusters[l]| ==> 0 <= clusters[l][i] < |labels| {
      assert clusters[l] == Members(labels, l);
    }
  }

  /** The sorted label order lists exactly the clusters. */
  lemma ClusterOrderListsClusters(clusters: map<int, seq<int>>, order: seq<int>, labels: seq<int>)
    requires (forall l :: l in clusters <==> l in labels) && order == Sort(LabelOrder(labels))
    ensures forall l :: l in clusters <==> l in order
  {
    forall l ensures l in clusters <==> l in order {
      assert l in order <==> l in multiset(order);
      assert l in LabelOrder(labels) <==> l in multiset(LabelOrder(labels));
    }
  }

  /** Both ends of every edge are node indices. */
  lemma EdgesInRange(links: seq<Link>, ids: seq<string>, edges: seq<(int, int)>)
    requires Edges(links, Indexing(ids)) == Ok(edges)
    ensures forall k :: 0 <= k < |edges| ==> 0 <= edges[k].0 < |ids| && 0 <= edges[k].1 < |ids|
  {
    var index := Indexing(ids);
    forall k | 0 <= k < |edges| ensures 0 <= edges[k].0 < |ids| && 0 <= edges[k].1 < |ids| {
      assert edges[k] == (index[links[k].from], index[links[k].to]);
    }
  }

  /** Every sensor index is the index of a link. */
  lemma SensorIndicesInRange(keys: seq<string>, links: seq<Link>, idxs: seq<int>)
    requires SensorIndices(keys, Indexing(LinkIds(links))) == Ok(idxs)
    ensures forall i :: 0 <= i < |idxs| ==> 0 <= idxs[i] < |links|
  {
    var index := Indexing(LinkIds(links));
    forall i | 0 <= i < |idxs| ensures 0 <= idxs[i] < |links| {
      assert idxs[i] == index[keys[i]];
    }
  }

  /**
   * parse_network, given the parsed elements and the KMeans labels of the
   * nodes. It fails on the first unreadable volume, on a link whose node
   * is missing, on target rows of different lengths and on a counted loc_id
   * that is not a link.
   */
  method ReadNetwork(nodes: seq<Node>, links: seq<Link>, counts: seq<CountRecord>, labels: seq<int>)
    returns (r: Result<Network>)
    ensures ReadFlows(counts).Err? ==> r == Err(ReadFlows(counts).error)
    ensures ReadFlows(counts).Ok? && Edges(links, Indexing(NodeIds(nodes))).Err? ==> r == Err(Edges(links, Indexing(NodeIds(nodes))).error)
    ensures ReadFlows(counts).Ok? && Edges(links, Indexing(NodeIds(nodes))).Ok? && !Rectangular(Targets(links, ReadFlows(counts).value.volumes)) ==>
      r == Err(ValueError("expected sequence of equal length"))
    ensures r.Ok? <==> Parses(nodes, links, counts)
    ensures r.Ok? ==> ParsedFrom(r.value, nodes, links, counts, labels)
  {
    var flows := ReadSensorFlows(counts);
    if flows.Err? {
      return Err(flows.error);
    }
    var index, ids, coords := IndexNodes(nodes);
    var pairs, linkIndex, rows := IndexLinks(links, index, flows.value.volumes);
    if pairs.Err? {
      return Err(pairs.error);
    }
    if !Rectangular(rows) {
      return Err(ValueError("expected sequence of equal length"));
    }
    var groups, keys := GroupLabels(labels);
    var idxs := SensorIndices(flows.value.keys, linkIndex);
    if idxs.Err? {
      return Err(idxs.error);
    }
    r := Ok(Network(ids, index, coords, pairs.value, linkIndex, rows, groups, Sort(keys), idxs.value));
  }

  lemma {:induction false} ClusterLinesErrSticks(net: Network, order: seq<int>, n: int)
    requires 0 <= n <= |order| && ClusterLines(net, order[..n]).Err?
    ensures ClusterLines(net, order) == ClusterLines(net, order[..n])
    decreases |order| - n
  {
    if n < |order| {
      assert order[..n + 1][..n] == order[..n];
      ClusterLinesErrSticks(net, order, n + 1);
    } else {
      assert order[..n] == order;
    }
  }

  lemma {:induction false} MemberIdsErrSticks(ids: seq<string>, members: seq<int>, n: int)
    requires 0 <= n <= |members| && MemberIds(ids, members[..n]).Err?
    ensures MemberIds(ids, members) == MemberIds(ids, members[..n])
    decreases |members| - n
  {
    if n < |members| {
      assert members[..n + 1][..n] == members[..n];
      MemberIdsErrSticks(ids, members, n + 1);
    } else {
      assert members[..n] == members;
    }
  }

  /** The inner loop of save_clusters: each member's id and a comma. */
  method MemberLine(ids: seq<string>, members: seq<int>) returns (r: Result<string>)
    ensures r.Ok? <==> MemberIds(ids, members).Ok?
    ensures r.Ok? ==> r.value == Terminated(MemberIds(ids, members).value, ',')
    ensures r.Err? ==> r.error == MemberIds(ids, members).error
  {
    var text := "";
    ghost var names: seq<string> := [];
    var i := 0;
    while i < |members|
      invariant 0 <= i <= |members|
      invariant MemberIds(ids, members[..i]) == Ok(names) && text == Terminated(names, ',')
    {
      assert members[..i + 1][..i] == members[..i];
      var id := Inverse(ids, members[i]);
      if id.Err? {
        MemberIdsErrSticks(ids, members, i + 1);
        return Err(id.error);
      }
      TerminatedSnoc(names, id.value, ',');
      text := text + id.value + ",";
      names := names + [id.value];
      i := i + 1;
    }
    assert members[..i] == members;
    r := Ok(text);
  }

  /** One more cluster: its line is appended, or its failure ends the lines. */
  lemma ClusterLinesStep(net: Network, order: seq<int>, k: nat, lines: seq<string>)
    requires k < |order| && ClusterLines(net, order[..k]) == Ok(lines)
    ensures ClusterLines(net, order[..k + 1]) ==
      if order[k] !in net.clusters then Err(KeyError(IntToString(order[k])))
      else match MemberIds(net.nodeIds, net.clusters[order[k]])
        case Err(e) => Err(e)
        case Ok(names) => Ok(lines + [ClusterLine(order[k], names)])
  {
    assert order[..k + 1][..k] == order[..k];
  }

  /** The loops of save_clusters: the text written, or the first failed lookup. */
  method WriteClusters(net: Network) returns (r: Result<string>)
    ensures r == ClustersText(net)
  {
    var text := "";
    ghost var lines: seq<string> := [];
    var order := net.clusterOrder;
    var k := 0;
    while k < |order|
      invariant 0 <= k <= |order|
      invariant ClusterLines(net, order[..k]) == Ok(lines) && text == Terminated(lines, '\n')
    {
      ClusterLinesStep(net, order, k, lines);
      var l := order[k];
      if l !in net.clusters {
        ClusterLinesErrSticks(net, order, k + 1);
        return Err(KeyError(IntToString(l)));
      }
      var members := net.clusters[l];
      var names := MemberLine(net.nodeIds, members);
      if names.Err? {
        ClusterLinesErrSticks(net, order, k + 1);
        return Err(names.error);
      }
      var line := IntToString(l) + ":" + names.value;
      assert line == ClusterLine(l, MemberIds(net.nodeIds, members).value);
      TerminatedSnoc(lines, line, '\n');
      text := text + line + "\n";
      lines := lines + [line];
      k := k + 1;
    }
    assert order[..k] == order;
    r := Ok(text);
  }

  class Dataset {
    const outputPath: string
    const networkPath: string
    const numClusters: int
    var network: Network
    var tam: Tam

    constructor(outputPath: string, networkPath: string, numClusters: int)
      ensures this.outputPath == outputPath && this.networkPath == networkPath && this.numClusters == numClusters
      ensures network == Network([], map[], map[], [], map[], [], map[], [], [])
    {
      this.outputPath := outputPath;
      this.networkPath := networkPath;
      this.numClusters := numClusters;
      network := Network([], map[], map[], [], map[], [], map[], [], []);
      tam := [];
    }

    /** parse_network: on success the dataset holds the parsed network; on failure it is left as it was. */
    method ParseNetwork(nodes: seq<Node>, links: seq<Link>, counts: seq<CountRecord>, labels: seq<int>)
      returns (err: Option<Error>)
      requires |labels| == |nodes|
      modifies this`network
      ensures err.None? ==> ParsedFrom(network, nodes, links, counts, labels) && Consistent(network)
      ensures err.Some? ==> network == old(network)
      ensures err.None? <==> Parses(nodes, links, counts)
    {
      var r := ReadNetwork(nodes, links, counts, labels);
      if r.Err? {
        return Some(r.error);
      }
      ParsedConsistent(r.value, nodes, links, counts, labels);
      network := r.value;
      err := None;
    }

    /**
     * build_TAM: the cache file named after the network's stem and the
     * cluster count is loaded when present, without calling the builder and
     * without checking its shape; otherwise the builder runs once and its
     * result is saved under that name.
     */
    method BuildTam(disk: Disk, centroidIdx: seq<int>, getTam: (seq<int>, seq<(int, int)>, int, int, int) -> Tam)
      modifies this`tam, disk
      ensures var key := TamFile(outputPath, networkPath, numClusters);
        && (key in old(disk.tams) ==> tam == old(disk.tams)[key] && disk.tams == old(disk.tams))
        && (key !in old(disk.tams) ==>
              tam == getTam(centroidIdx, network.edges, |network.nodeIds|, |network.edges|, numClusters) && disk.tams == old(disk.tams)[key := tam])
        && key in disk.tams && disk.tams[key] == tam
    {
      var key := TamFile(outputPath, networkPath, numClusters);
      if key !in disk.tams {
        tam := getTam(centroidIdx, network.edges, |network.nodeIds|, |network.edges|, numClusters);
        disk.tams := disk.tams[key := tam];
      } else {
        tam := disk.tams[key];
      }
    }

    /** save_clusters: the text written, or the first failed lookup. */
    method SaveClusters() returns (r: Result<string>)
      ensures r == ClustersText(network)
    {
      r := WriteClusters(network);
    }

    /**
     * save_plans_from_flow_res over a (z1, z2, hours) flow tensor, with the
     * i-th person's random choices given by draws(i). After a failed lookup
     * the remaining iterations leave the failure as it is.
     */
    method SavePlans(flows: seq<seq<seq<real>>>, z2: nat, hours: nat, draws: int -> Draw) returns (r: Result<seq<Person>>)
      requires Shape(flows, z2, hours)
      ensures r == Plans(network, flows, z2, hours, draws, |flows|)
    {
      r := Ok([]);
      var c1 := 0;
      while c1 < |flows|
        invariant 0 <= c1 <= |flows|
        invariant r == Plans(network, flows, z2, hours, draws, c1)
      {
        var c2 := 0;
        while c2 < z2
          invariant 0 <= c2 <= z2
          invariant r == DestinationPlans(Plans(network, flows, z2, hours, draws, c1), network, flows, z2, hours, draws, c1, c2)
        {
          var h := 0;
          while h < hours
            invariant 0 <= h <= hours
            invariant r == HourPlans(DestinationPlans(Plans(network, flows, z2, hours, draws, c1), network, flows, z2, hours, draws, c1, c2),
                                     network, flows, z2, hours, draws, c1, c2, h)
          {
            var count := Trips(flows[c1][c2][h]);
            ghost var start := r;
            var j := 0;
            while j < count
              invariant 0 <= j <= count
              invariant r == AddPersons(start, network, draws, c1, c2, h, j)
            {
              r := AddPerson(r, network, draws, c1, c2, h);
              j := j + 1;
            }
            h := h + 1;
          }
          c2 := c2 + 1;
        }
        c1 := c1 + 1;
      }
    }
  }
}
