/**
 * The graph dataset of the charger-placement environment: every link of a
 * MATSim network becomes a row of edge attributes (length, free speed,
 * capacity, then one flag column per charger type), the charger file sets
 * the flags and prices the placement, and the first three columns are
 * min-max normalised. Which copy of the charger constants is in use is a
 * parameter: only the wireless copy has prices.
 */
module MatsimXmlDataset {
  import opened Wrappers
  import opened Text
  import Decimals
  import opened Chargers
  import FlowSimDataset

  const Length := "length"
  const FreeSpeed := "freespeed"
  const Capacity := "capacity"

  type Row = seq<real>

  // ---------------------------------------------------------------------------
  // The attribute layout
  // ---------------------------------------------------------------------------

  /** create_edge_attr_mapping: the keys in insertion order of the dict, none repeated. */
  function AttrKeys(types: seq<ChargerKind>): (ks: seq<string>)
    ensures |ks| >= 3 && ks[..3] == [Length, FreeSpeed, Capacity]
    ensures DistinctKeys(ks)
  {
    if types == [] then [Length, FreeSpeed, Capacity]
    else
      var ks := AttrKeys(types[..|types| - 1]);
      var t := TypeName(types[|types| - 1]);
      if t in ks then ks else ks + [t]
  }

  /**
   * create_edge_attr_mapping: length, freespeed and capacity at 0, 1 and 2,
   * then each charger type at 3, 4, ...; a repeated type keeps its last index.
   */
  function AttrMapping(types: seq<ChargerKind>): (m: map<string, int>)
    ensures Length in m && FreeSpeed in m && Capacity in m && m[Length] == 0 && m[FreeSpeed] == 1 && m[Capacity] == 2
    ensures forall k :: 0 <= k < |types| ==> TypeName(types[k]) in m && m[TypeName(types[k])] >= 3
    ensures forall k :: k in m ==> 0 <= m[k] < 3 + |types|
  {
    if types == [] then map[Length := 0, FreeSpeed := 1, Capacity := 2]
    else
      var prefix := types[..|types| - 1];
      assert forall k :: 0 <= k < |prefix| ==> prefix[k] == types[k];
      AttrMapping(prefix)[TypeName(types[|types| - 1]) := 2 + |types|]
  }

  predicate DistinctKinds(types: seq<ChargerKind>) {
    forall i, j :: 0 <= i < j < |types| ==> types[i] != types[j]
  }

  predicate DistinctKeys(ks: seq<string>) {
    forall i, j :: 0 <= i < j < |ks| ==> ks[i] != ks[j]
  }

  lemma TypeNameInjective(a: ChargerKind, b: ChargerKind)
    ensures TypeName(a) == TypeName(b) <==> a == b
  {
  }

  /** With distinct charger types, the k-th type sits at column 3 + k. */
  lemma {:induction false} AttrColumns(types: seq<ChargerKind>)
    requires DistinctKinds(types)
    ensures forall k :: 0 <= k < |types| ==> AttrMapping(types)[TypeName(types[k])] == 3 + k
  {
    if types != [] {
      var prefix := types[..|types| - 1];
      assert forall k :: 0 <= k < |prefix| ==> prefix[k] == types[k];
      AttrColumns(prefix);
      forall k | 0 <= k < |prefix| ensures TypeName(types[k]) != TypeName(types[|types| - 1]) {
        TypeNameInjective(types[k], types[|types| - 1]);
      }
    }
  }

  /** The dict's keys, in insertion order, are the mapping's keys. */
  lemma {:induction false} AttrKeysAreKeys(types: seq<ChargerKind>)
    ensures AttrMapping(types).Keys == set k | k in AttrKeys(types)
  {
    if types != [] {
      AttrKeysAreKeys(types[..|types| - 1]);
    }
  }

  /** A key of the mapping is a fixed attribute or the type of one of the chargers. */
  lemma {:induction false} KeyOfMapping(types: seq<ChargerKind>, key: string)
    requires key in AttrMapping(types)
    ensures key == Length || key == FreeSpeed || key == Capacity || exists k :: 0 <= k < |types| && key == TypeName(types[k])
  {
    if types != [] && key != TypeName(types[|types| - 1]) {
      var prefix := types[..|types| - 1];
      KeyOfMapping(prefix, key);
      if !(key == Length || key == FreeSpeed || key == Capacity) {
        var k :| 0 <= k < |prefix| && key == TypeName(prefix[k]);
        assert key == TypeName(types[k]);
      }
    }
  }

  /**
   * With distinct charger types, no two keys share a column and there are
   * 3 + |types| of them: the width of every attribute row.
   */
  lemma AttrLayout(types: seq<ChargerKind>)
    requires DistinctKinds(types)
    ensures var m := AttrMapping(types);
      && (forall key1, key2 :: key1 in m && key2 in m && m[key1] == m[key2] ==> key1 == key2)
      && |AttrKeys(types)| == |m| == 3 + |types|
  {
    var m := AttrMapping(types);
    AttrColumns(types);
    forall key1, key2 | key1 in m && key2 in m && m[key1] == m[key2] ensures key1 == key2 {
      KeyOfMapping(types, key1);
      KeyOfMapping(types, key2);
    }
    AttrKeysCount(types);
    AttrKeysAreKeys(types);
    CardinalityOfKeys(AttrKeys(types));
  }

  lemma {:induction false} AttrKeysCount(types: seq<ChargerKind>)
    requires DistinctKinds(types)
    ensures |AttrKeys(types)| == 3 + |types|
  {
    if types != [] {
      var prefix := types[..|types| - 1];
      assert DistinctKinds(prefix);
      AttrKeysCount(prefix);
      if TypeName(types[|types| - 1]) in AttrKeys(prefix) {
        AttrKeysAreKeys(prefix);
        KeyOfMapping(prefix, TypeName(types[|types| - 1]));
        var k :| 0 <= k < |prefix| && TypeName(types[|types| - 1]) == TypeName(prefix[k]);
        TypeNameInjective(types[|types| - 1], prefix[k]);
        assert false;
      }
    }
  }

  lemma {:induction false} CardinalityOfKeys(ks: seq<string>)
    requires DistinctKeys(ks)
    ensures |set k | k in ks| == |ks|
  {
    if ks != [] {
      var prefix := ks[..|ks| - 1];
      CardinalityOfKeys(prefix);
      assert (set k | k in ks) == (set k | k in prefix) + {ks[|ks| - 1]};
    }
  }

  // ---------------------------------------------------------------------------
  // parse_matsim_network
  // ---------------------------------------------------------------------------

  datatype XmlNode = XmlNode(id: string, x: string, y: string)

  /** A link element: its id, end nodes and all its attributes. */
  datatype XmlLink = XmlLink(id: string, from: string, to: string, attrib: map<string, string>)

  /** Python's float() on finite decimal numerals, with or without an exponent. */
  function ParseFloat(s: string): (r: Result<real>)
    ensures r.Ok? <==> Decimals.Parse(s).Ok?
    ensures r.Err? ==> r.error.ValueError?
  {
    match Decimals.Parse(s)
    case Ok(d) => Ok(Decimals.Value(d))
    case Err(_) => Err(ValueError("could not convert string to float: '" + s + "'"))
  }

  /** An attribute MATSim wrote, "120.0" or "1.2E7" alike, reads back as its value. */
  lemma ParseFloatPrinted(d: Decimals.Decimal)
    requires |d.fraction| >= 1
    ensures ParseFloat(Decimals.Print(d)) == Ok(Decimals.Value(d))
  {
    Decimals.ParsePrint(d);
  }

  function Zeros(n: nat): (row: Row)
    ensures |row| == n && forall c :: 0 <= c < n ==> row[c] == 0.0
  {
    seq(n, c => 0.0)
  }

  /** The larger of two reals, the first on a tie. */
  function Max(a: real, b: real): (r: real)
    ensures r >= a && r >= b && (r == a || r == b)
  {
    if a >= b then a else b
  }

  /**
   * What a link adds to max_charger_cost: nothing without a length
   * attribute, else the larger of the static price and the dynamic price
   * for its length in km.
   */
  function LinkCost(link: XmlLink, v: Variant): Result<real> {
    if Length !in link.attrib then Ok(0.0)
    else
      match ParseFloat(link.attrib[Length])
      case Err(e) => Err(e)
      case Ok(length) =>
        match Price(StaticCharger, v)
        case Err(e) => Err(e)
        case Ok(staticPrice) =>
          match Price(DynamicCharger, v)
          case Err(e) => Err(e)
          case Ok(dynamicPrice) => Ok(Max(staticPrice, dynamicPrice * (length * 0.001)))
  }

  /** edge_attr_mapping.items(): each key with its column, in the dict's insertion order. */
  function AttrItems(types: seq<ChargerKind>): (items: seq<(string, int)>)
    ensures |items| == |AttrKeys(types)|
    ensures forall j :: 0 <= j < |items| ==>
      items[j].0 == AttrKeys(types)[j] && items[j].0 in AttrMapping(types) && items[j].1 == AttrMapping(types)[items[j].0]
  {
    AttrKeysAreKeys(types);
    var keys := AttrKeys(types);
    seq(|keys|, j requires 0 <= j < |keys| => (keys[j], AttrMapping(types)[keys[j]]))
  }

  /** Every column named by the items lies inside a row of the given width. */
  predicate ColumnsIn(items: seq<(string, int)>, width: nat) {
    forall j :: 0 <= j < |items| ==> 0 <= items[j].1 < width
  }

  /** No two items share a column. */
  predicate DistinctColumns(items: seq<(string, int)>) {
    forall i, j :: 0 <= i < j < |items| ==> items[i].1 != items[j].1
  }

  /** With distinct charger types, the items' columns are distinct and fill a row as wide as the mapping. */
  lemma ItemsLayout(types: seq<ChargerKind>)
    requires DistinctKinds(types)
    ensures ColumnsIn(AttrItems(types), |AttrMapping(types)|) && DistinctColumns(AttrItems(types))
    ensures |AttrItems(types)| == |AttrMapping(types)|
  {
    var items := AttrItems(types);
    var m := AttrMapping(types);
    AttrLayout(types);
    AttrKeysAreKeys(types);
    forall i, j | 0 <= i < j < |items| ensures items[i].1 != items[j].1 {
      assert AttrKeys(types)[i] != AttrKeys(types)[j];
    }
  }

  /**
   * The attribute row of a link after the first n items of the mapping:
   * a row of zeros of the given width (tot_attr), with each attribute the
   * link carries written into its column.
   */
  function AttrRow(link: XmlLink, items: seq<(string, int)>, width: nat, n: nat): (r: Result<Row>)
    requires n <= |items|
    ensures r.Ok? ==> |r.value| == width
  {
    if n == 0 then Ok(Zeros(width))
    else
      match AttrRow(link, items, width, n - 1)
      case Err(e) => Err(e)
      case Ok(row) =>
        var (key, col) := items[n - 1];
        if key !in link.attrib then Ok(row)
        else
          match ParseFloat(link.attrib[key])
          case Err(e) => Err(e)
          case Ok(x) => if 0 <= col < |row| then Ok(row[col := x]) else Err(IndexError)
  }

  /** The value a key leaves in its column: the parsed attribute, or 0 when the link has none. */
  function Cell(link: XmlLink, key: string): real {
    if key in link.attrib && ParseFloat(link.attrib[key]).Ok? then ParseFloat(link.attrib[key]).value else 0.0
  }

  /** A row is built exactly when every attribute the link carries among the first n keys parses. */
  lemma {:induction false} AttrRowOk(link: XmlLink, items: seq<(string, int)>, width: nat, n: nat)
    requires ColumnsIn(items, width) && n <= |items|
    ensures AttrRow(link, items, width, n).Ok? <==>
      forall j :: 0 <= j < n && items[j].0 in link.attrib ==> ParseFloat(link.attrib[items[j].0]).Ok?
  {
    if n > 0 {
      AttrRowOk(link, items, width, n - 1);
    }
  }

  /**
   * With distinct columns, each of the first n items' columns of a built
   * row holds that key's value, and every later item's column is 0.
   */
  lemma {:induction false} AttrRowCells(link: XmlLink, items: seq<(string, int)>, width: nat, n: nat)
    requires ColumnsIn(items, width) && DistinctColumns(items) && n <= |items|
    ensures var r := AttrRow(link, items, width, n);
      r.Ok? ==> forall j :: 0 <= j < |items| ==> r.value[items[j].1] == if j < n then Cell(link, items[j].0) else 0.0
  {
    var r := AttrRow(link, items, width, n);
    if n > 0 && r.Ok? {
      AttrRowCells(link, items, width, n - 1);
      var row := AttrRow(link, items, width, n - 1).value;
      var (key, col) := items[n - 1];
      assert r.value == if key !in link.attrib then row else row[col := ParseFloat(link.attrib[key]).value];
      forall j | 0 <= j < |items| ensures r.value[items[j].1] == if j < n then Cell(link, items[j].0) else 0.0 {
        if j != n - 1 {
          assert items[j].1 != col;
        }
      }
    }
  }

  /** The positions of the first n nodes, x then y parsed for each node in order. */
  function Positions(nodes: seq<XmlNode>, n: nat): (r: Result<seq<(real, real)>>)
    requires n <= |nodes|
    ensures r.Ok? ==> |r.value| == n
  {
    if n == 0 then Ok([])
    else
      match Positions(nodes, n - 1)
      case Err(e) => Err(e)
      case Ok(ps) =>
        match ParseFloat(nodes[n - 1].x)
        case Err(e) => Err(e)
        case Ok(x) =>
          match ParseFloat(nodes[n - 1].y)
          case Err(e) => Err(e)
          case Ok(y) => Ok(ps + [(x, y)])
  }

  function NodeIds(nodes: seq<XmlNode>): (ids: seq<string>)
    ensures |ids| == |nodes| && forall i :: 0 <= i < |nodes| ==> ids[i] == nodes[i].id
  {
    seq(|nodes|, i requires 0 <= i < |nodes| => nodes[i].id)
  }

  function LinkIds(links: seq<XmlLink>): (ids: seq<string>)
    ensures |ids| == |links| && forall i :: 0 <= i < |links| ==> ids[i] == links[i].id
  {
    seq(|links|, i requires 0 <= i < |links| => links[i].id)
  }

  /** One link: its end nodes' indices (KeyError for an unknown node), its attribute row and its cost. */
  function LinkEntry(link: XmlLink, items: seq<(string, int)>, width: nat, nodeMapping: map<string, int>, v: Variant)
    : (r: Result<((int, int), Row, real)>)
  {
    if link.from !in nodeMapping then Err(KeyError(link.from))
    else if link.to !in nodeMapping then Err(KeyError(link.to))
    else
      match LinkCost(link, v)
      case Err(e) => Err(e)
      case Ok(cost) =>
        match AttrRow(link, items, width, |items|)
        case Err(e) => Err(e)
        case Ok(row) => Ok(((nodeMapping[link.from], nodeMapping[link.to]), row, cost))
  }

  /** The entries of all links, in document order. */
  function LinkEntries(links: seq<XmlLink>, items: seq<(string, int)>, width: nat, nodeMapping: map<string, int>, v: Variant)
    : (es: seq<Result<((int, int), Row, real)>>)
    ensures |es| == |links|
  {
    seq(|links|, k requires 0 <= k < |links| => LinkEntry(links[k], items, width, nodeMapping, v))
  }

  /** The edges, rows and accumulated max_charger_cost of the first n entries; the first failing entry's error. */
  function Stacked(es: seq<Result<((int, int), Row, real)>>, n: nat): (r: Result<(seq<(int, int)>, seq<Row>, real)>)
    requires n <= |es|
    ensures r.Ok? ==> |r.value.0| == n && |r.value.1| == n
  {
    if n == 0 then Ok(([], [], 0.0))
    else
      match Stacked(es, n - 1)
      case Err(e) => Err(e)
      case Ok(acc) =>
        match es[n - 1]
        case Err(e) => Err(e)
        case Ok(entry) => Ok((acc.0 + [entry.0], acc.1 + [entry.1], acc.2 + entry.2))
  }

  /** Every attribute row of the first n links is as wide as tot_attr. */
  lemma {:induction false} ParsedLinksWidths(links: seq<XmlLink>, items: seq<(string, int)>, width: nat,
                                             nodeMapping: map<string, int>, v: Variant, n: nat)
    requires n <= |links|
    ensures var r := Stacked(LinkEntries(links, items, width, nodeMapping, v), n);
      r.Ok? ==> forall k :: 0 <= k < n ==> |r.value.1[k]| == width
  {
    if n > 0 {
      ParsedLinksWidths(links, items, width, nodeMapping, v, n - 1);
    }
  }

  /** The parsed network: node and edge indices, positions, edges, attribute rows and max_charger_cost. */
  datatype Graph = Graph(nodeMapping: map<string, int>, positions: seq<(real, real)>, edges: seq<(int, int)>,
                         edgeMapping: map<string, int>, rows: seq<Row>, maxChargerCost: real)

  /** parse_matsim_network; stacking the rows of a network without links fails. */
  function ParseNetwork(nodes: seq<XmlNode>, links: seq<XmlLink>, types: seq<ChargerKind>, v: Variant): (r: Result<Graph>)
    ensures r.Ok? ==> |r.value.rows| == |r.value.edges| == |links| > 0
    ensures r.Ok? ==> forall k :: 0 <= k < |links| ==> |r.value.rows[k]| == |AttrMapping(types)|
    ensures r.Ok? ==> r.value.edgeMapping == FlowSimDataset.Indexing(LinkIds(links))
  {
    match Positions(nodes, |nodes|)
    case Err(e) => Err(e)
    case Ok(positions) =>
      var nodeMapping := FlowSimDataset.Indexing(NodeIds(nodes));
      var items := AttrItems(types);
      var width := |AttrMapping(types)|;
      match Stacked(LinkEntries(links, items, width, nodeMapping, v), |links|)
      case Err(e) => Err(e)
      case Ok(parsed) =>
        ParsedLinksWidths(links, items, width, nodeMapping, v, |links|);
        if |links| == 0 then Err(RuntimeError("stack expects a non-empty TensorList"))
        else Ok(Graph(nodeMapping, positions, parsed.0, FlowSimDataset.Indexing(LinkIds(links)), parsed.1, parsed.2))
  }

  /** The number of links among the first n that carry a length. */
  function LengthLinks(links: seq<XmlLink>, n: nat): nat
    requires n <= |links|
  {
    if n == 0 then 0 else LengthLinks(links, n - 1) + (if Length in links[n - 1].attrib then 1 else 0)
  }

  /**
   * max_charger_cost is at least the static price for every link with a
   * length; without prices (the ev copy of the charger constants) any link
   * with a length makes the parse fail.
   */
  lemma {:induction false} ParsedLinksCost(links: seq<XmlLink>, items: seq<(string, int)>, width: nat,
                                           nodeMapping: map<string, int>, v: Variant, n: nat)
    requires n <= |links|
    ensures var r := Stacked(LinkEntries(links, items, width, nodeMapping, v), n);
      r.Ok? ==> r.value.2 >= 120000.0 * LengthLinks(links, n) as real && (v.Ev? ==> LengthLinks(links, n) == 0)
  {
    if n > 0 {
      ParsedLinksCost(links, items, width, nodeMapping, v, n - 1);
    }
  }

  /** The inner loop of parse_matsim_network: the attributes of one link, in the mapping's insertion order. */
  method ReadAttributes(link: XmlLink, items: seq<(string, int)>, width: nat) returns (r: Result<Row>)
    ensures r == AttrRow(link, items, width, |items|)
  {
    var row := Zeros(width);
    for n := 0 to |items|
      invariant AttrRow(link, items, width, n) == Ok(row)
    {
      var (key, col) := items[n];
      if key in link.attrib {
        var x := ParseFloat(link.attrib[key]);
        if x.Err? || !(0 <= col < |row|) {
          AttrRowErrSticks(link, items, width, n + 1, |items|);
          return if x.Err? then Err(x.error) else Err(IndexError);
        }
        row := row[col := x.value];
      }
    }
    r := Ok(row);
  }

  lemma {:induction false} AttrRowErrSticks(link: XmlLink, items: seq<(string, int)>, width: nat, m: nat, n: nat)
    requires m <= n <= |items| && AttrRow(link, items, width, m).Err?
    ensures AttrRow(link, items, width, n) == AttrRow(link, items, width, m)
    decreases n
  {
    if n > m {
      AttrRowErrSticks(link, items, width, m, n - 1);
    }
  }

  lemma {:induction false} PositionsErrSticks(nodes: seq<XmlNode>, m: nat, n: nat)
    requires m <= n <= |nodes| && Positions(nodes, m).Err?
    ensures Positions(nodes, n) == Positions(nodes, m)
    decreases n
  {
    if n > m {
      PositionsErrSticks(nodes, m, n - 1);
      assert Positions(nodes, n - 1).Err?;
    }
  }

  lemma {:induction false} StackedErrSticks(es: seq<Result<((int, int), Row, real)>>, m: nat, n: nat)
    requires m <= n <= |es| && Stacked(es, m).Err?
    ensures Stacked(es, n) == Stacked(es, m)
    decreases n
  {
    if n > m {
      StackedErrSticks(es, m, n - 1);
    }
  }

  /** The bidict after one more id: it takes the next index. */
  function NextIndex(m: map<string, int>, ids: seq<string>, i: nat): (r: map<string, int>)
    requires i < |ids| && m == FlowSimDataset.Indexing(ids[..i])
    ensures r == FlowSimDataset.Indexing(ids[..i + 1])
  {
    assert ids[..i + 1] == ids[..i] + [ids[i]];
    FlowSimDataset.IndexingStep(ids[..i], ids[i]);
    m[ids[i] := i]
  }

  /** A bidict from ids to their positions, built id by id (a repeated id keeps its last position). */
  method IndexIds(ids: seq<string>) returns (m: map<string, int>)
    ensures m == FlowSimDataset.Indexing(ids)
  {
    m := map[];
    for i := 0 to |ids|
      invariant m == FlowSimDataset.Indexing(ids[..i])
    {
      m := NextIndex(m, ids, i);
    }
    assert ids[..|ids|] == ids;
  }

  /** One node: its x and its y parsed, appended to the positions so far. */
  method NextPosition(nodes: seq<XmlNode>, i: nat, positions: seq<(real, real)>) returns (r: Result<seq<(real, real)>>)
    requires i < |nodes| && Positions(nodes, i) == Ok(positions)
    ensures r == Positions(nodes, i + 1)
  {
    var x := ParseFloat(nodes[i].x);
    if x.Err? {
      return Err(x.error);
    }
    var y := ParseFloat(nodes[i].y);
    if y.Err? {
      return Err(y.error);
    }
    r := Ok(positions + [(x.value, y.value)]);
  }

  /** The node loop of parse_matsim_network: the positions. */
  method ReadNodes(nodes: seq<XmlNode>) returns (r: Result<seq<(real, real)>>)
    ensures r == Positions(nodes, |nodes|)
  {
    var positions: seq<(real, real)> := [];
    for i := 0 to |nodes|
      invariant Positions(nodes, i) == Ok(positions)
    {
      var next := NextPosition(nodes, i, positions);
      if next.Err? {
        PositionsErrSticks(nodes, i + 1, |nodes|);
        return Err(next.error);
      }
      positions := next.value;
    }
    r := Ok(positions);
  }

  /** One link of the link loop: its edge, its attribute row and its charger cost. */
  method ReadLink(link: XmlLink, items: seq<(string, int)>, width: nat, nodeMapping: map<string, int>, v: Variant)
    returns (entry: Result<((int, int), Row, real)>)
    ensures entry == LinkEntry(link, items, width, nodeMapping, v)
  {
    if link.from !in nodeMapping {
      return Err(KeyError(link.from));
    }
    if link.to !in nodeMapping {
      return Err(KeyError(link.to));
    }
    var linkCost := LinkCost(link, v);
    if linkCost.Err? {
      return Err(linkCost.error);
    }
    var row := ReadAttributes(link, items, width);
    if row.Err? {
      return Err(row.error);
    }
    entry := Ok(((nodeMapping[link.from], nodeMapping[link.to]), row.value, linkCost.value));
  }

  /** The link loop of parse_matsim_network: edges, attribute rows and max_charger_cost. */
  method ReadLinks(links: seq<XmlLink>, items: seq<(string, int)>, width: nat, nodeMapping: map<string, int>, v: Variant)
    returns (r: Result<(seq<(int, int)>, seq<Row>, real)>)
    ensures r == Stacked(LinkEntries(links, items, width, nodeMapping, v), |links|)
  {
    var edges: seq<(int, int)> := [];
    var rows: seq<Row> := [];
    var cost := 0.0;
    ghost var es := LinkEntries(links, items, width, nodeMapping, v);
    for i := 0 to |links|
      invariant Stacked(es, i) == Ok((edges, rows, cost))
    {
      var entry := ReadLink(links[i], items, width, nodeMapping, v);
      assert entry == es[i];
      if entry.Err? {
        StackedErrSticks(es, i + 1, |links|);
        return Err(entry.error);
      }
      edges := edges + [entry.value.0];
      rows := rows + [entry.value.1];
      cost := cost + entry.value.2;
    }
    r := Ok((edges, rows, cost));
  }

  /** parse_matsim_network: the node loop, then the link loop over the mapping's items and tot_attr. */
  method ParseMatsimNetwork(nodes: seq<XmlNode>, links: seq<XmlLink>, types: seq<ChargerKind>, v: Variant)
    returns (r: Result<Graph>)
    ensures r == ParseNetwork(nodes, links, types, v)
  {
    var positions := ReadNodes(nodes);
    if positions.Err? {
      return Err(positions.error);
    }
    // the node loop also records each node id's position
    var nodeMapping := IndexIds(NodeIds(nodes));
    var items := AttrItems(types);
    var width := |AttrMapping(types)|;
    var parsed := ReadLinks(links, items, width, nodeMapping, v);
    if parsed.Err? {
      return Err(parsed.error);
    }
    // the link loop also records each link id's position
    var edgeMapping := IndexIds(LinkIds(links));
    if |links| == 0 {
      return Err(RuntimeError("stack expects a non-empty TensorList"));
    }
    r := Ok(Graph(nodeMapping, positions.value, parsed.value.0, edgeMapping, parsed.value.1, parsed.value.2));
  }

  // ---------------------------------------------------------------------------
  // parse_charger_network_get_charger_cost
  // ---------------------------------------------------------------------------

  /** A charger element of chargers.xml: its link and its type attribute, if any. */
  datatype XmlCharger = XmlCharger(link: string, chargerType: Option<string>)

  /** A charger without a type attribute is a static ("default") one. */
  function ChargerType(c: XmlCharger): string {
    if c.chargerType.Some? then c.chargerType.value else TypeName(StaticCharger)
  }

  /** Length, free speed and capacity: the columns the charger file never names. */
  predicate IsBaseKey(key: string) {
    key == Length || key == FreeSpeed || key == Capacity
  }

  /** The charger columns of a row reset to 0 (edge_attr[:, 3:] = 0). */
  function ClearFlags(row: Row): (r: Row)
    ensures |r| == |row|
    ensures forall j :: 0 <= j < |r| ==> r[j] == if j < 3 then row[j] else 0.0
  {
    seq(|row|, j requires 0 <= j < |row| => if j < 3 then row[j] else 0.0)
  }

  function ClearAll(rows: seq<Row>): (r: seq<Row>)
    ensures |r| == |rows| && forall k :: 0 <= k < |rows| ==> r[k] == ClearFlags(rows[k])
  {
    seq(|rows|, k requires 0 <= k < |rows| => ClearFlags(rows[k]))
  }

  /** The row of a link id: KeyError for an unknown id, IndexError outside the tensor. */
  function RowIndex(edgeMapping: map<string, int>, rows: seq<Row>, id: string): (r: Result<nat>)
    ensures r.Ok? ==> r.value < |rows|
  {
    if id !in edgeMapping then Err(KeyError(id))
    else if 0 <= edgeMapping[id] < |rows| then Ok(edgeMapping[id])
    else Err(IndexError)
  }

  /** edge_attr[k][m[key]] = 1: KeyError for a key without a column, IndexError for a column outside the row. */
  function SetFlag(rows: seq<Row>, k: nat, key: string, m: map<string, int>): (r: Result<seq<Row>>)
    requires k < |rows|
  {
    if key !in m then Err(KeyError(key))
    else if 0 <= m[key] < |rows[k]| then Ok(rows[k := rows[k][m[key] := 1.0]])
    else Err(IndexError)
  }

  /**
   * What one charger adds to the cost: the static price, or the dynamic
   * price times its link's length column (column 0) in km; any other type
   * costs nothing.
   */
  function ChargerCost(rows: seq<Row>, c: XmlCharger, edgeMapping: map<string, int>, v: Variant): Result<real> {
    var t := ChargerType(c);
    if t == TypeName(StaticCharger) then Price(StaticCharger, v)
    else if t == TypeName(DynamicCharger) then
      match RowIndex(edgeMapping, rows, c.link)
      case Err(e) => Err(e)
      case Ok(k) =>
        if |rows[k]| == 0 then Err(IndexError)
        else
          match Price(DynamicCharger, v)
          case Err(e) => Err(e)
          case Ok(price) => Ok(price * (rows[k][0] * 0.001))
    else Ok(0.0)
  }

  /** One charger: its cost is added, then the flag of its type is set on its link's row. */
  function PlaceCharger(acc: (seq<Row>, real), c: XmlCharger, edgeMapping: map<string, int>, m: map<string, int>,
                        v: Variant): Result<(seq<Row>, real)>
  {
    match ChargerCost(acc.0, c, edgeMapping, v)
    case Err(e) => Err(e)
    case Ok(add) =>
      match RowIndex(edgeMapping, acc.0, c.link)
      case Err(e) => Err(e)
      case Ok(k) =>
        match SetFlag(acc.0, k, ChargerType(c), m)
        case Err(e) => Err(e)
        case Ok(rows) => Ok((rows, acc.1 + add))
  }

  /** The rows and the cost after clearing the flags and placing the first n chargers. */
  function PlaceChargers(rows: seq<Row>, chargers: seq<XmlCharger>, n: nat, edgeMapping: map<string, int>,
                         m: map<string, int>, v: Variant): (r: Result<(seq<Row>, real)>)
    requires n <= |chargers|
    ensures r.Ok? ==> |r.value.0| == |rows| && forall k :: 0 <= k < |rows| ==> |r.value.0[k]| == |rows[k]|
  {
    if n == 0 then Ok((ClearAll(rows), 0.0))
    else
      match PlaceChargers(rows, chargers, n - 1, edgeMapping, m, v)
      case Err(e) => Err(e)
      case Ok(acc) => PlaceCharger(acc, chargers[n - 1], edgeMapping, m, v)
  }

  /**
   * The final pass for one row: the "none" flag is set unless the "default"
   * or the "dynamic" flag is 1; "dynamic" is only looked at when "default"
   * is not 1.
   */
  function MarkNoneRow(row: Row, m: map<string, int>): (r: Result<Row>)
    ensures r.Ok? ==> |r.value| == |row|
  {
    var staticKey := TypeName(StaticCharger);
    var dynamicKey := TypeName(DynamicCharger);
    var noneKey := TypeName(NoneCharger);
    if staticKey !in m then Err(KeyError(staticKey))
    else if !(0 <= m[staticKey] < |row|) then Err(IndexError)
    else if row[m[staticKey]] == 1.0 then Ok(row)
    else if dynamicKey !in m then Err(KeyError(dynamicKey))
    else if !(0 <= m[dynamicKey] < |row|) then Err(IndexError)
    else if row[m[dynamicKey]] == 1.0 then Ok(row)
    else if noneKey !in m then Err(KeyError(noneKey))
    else if !(0 <= m[noneKey] < |row|) then Err(IndexError)
    else Ok(row[m[noneKey] := 1.0])
  }

  /** The rows after the final pass over the first n links of the network file. */
  function MarkNone(rows: seq<Row>, links: seq<XmlLink>, n: nat, edgeMapping: map<string, int>, m: map<string, int>)
    : (r: Result<seq<Row>>)
    requires n <= |links|
    ensures r.Ok? ==> |r.value| == |rows| && forall k :: 0 <= k < |rows| ==> |r.value[k]| == |rows[k]|
  {
    if n == 0 then Ok(rows)
    else
      match MarkNone(rows, links, n - 1, edgeMapping, m)
      case Err(e) => Err(e)
      case Ok(acc) =>
        match RowIndex(edgeMapping, acc, links[n - 1].id)
        case Err(e) => Err(e)
        case Ok(k) =>
          match MarkNoneRow(acc[k], m)
          case Err(e) => Err(e)
          case Ok(row) => Ok(acc[k := row])
  }

  /** parse_charger_network_get_charger_cost: the new attribute rows and the returned cost. */
  function ChargerPass(rows: seq<Row>, links: seq<XmlLink>, chargers: seq<XmlCharger>, edgeMapping: map<string, int>,
                       m: map<string, int>, v: Variant): (r: Result<(seq<Row>, real)>)
    ensures r.Ok? ==> |r.value.0| == |rows| && forall k :: 0 <= k < |rows| ==> |r.value.0[k]| == |rows[k]|
  {
    match PlaceChargers(rows, chargers, |chargers|, edgeMapping, m, v)
    case Err(e) => Err(e)
    case Ok(placed) =>
      match MarkNone(placed.0, links, |links|, edgeMapping, m)
      case Err(e) => Err(e)
      case Ok(out) => Ok((out, placed.1))
  }

  /** No charger among the first n writes column j: its type has no column, or another one. */
  predicate Untouched(chargers: seq<XmlCharger>, n: nat, m: map<string, int>, j: int)
    requires n <= |chargers|
  {
    forall i :: 0 <= i < n && ChargerType(chargers[i]) in m ==> m[ChargerType(chargers[i])] != j
  }

  /** A column no charger names keeps its cleared value through the placement loop. */
  lemma {:induction false} PlaceChargersKeeps(rows: seq<Row>, chargers: seq<XmlCharger>, n: nat, edgeMapping: map<string, int>,
                                              m: map<string, int>, v: Variant, j: int)
    requires n <= |chargers| && Untouched(chargers, n, m, j)
    ensures var r := PlaceChargers(rows, chargers, n, edgeMapping, m, v);
      r.Ok? ==> forall k :: 0 <= k < |rows| && 0 <= j < |rows[k]| ==> r.value.0[k][j] == if j < 3 then rows[k][j] else 0.0
  {
    if n > 0 {
      PlaceChargersKeeps(rows, chargers, n - 1, edgeMapping, m, v, j);
    }
  }

  /** The number of static chargers (explicitly "default" or without a type) among the first n. */
  function StaticCount(chargers: seq<XmlCharger>, n: nat): nat
    requires n <= |chargers|
  {
    if n == 0 then 0
    else StaticCount(chargers, n - 1) + if ChargerType(chargers[n - 1]) == TypeName(StaticCharger) then 1 else 0
  }

  /** The number of dynamic chargers among the first n. */
  function DynamicCount(chargers: seq<XmlCharger>, n: nat): nat
    requires n <= |chargers|
  {
    if n == 0 then 0
    else DynamicCount(chargers, n - 1) + if ChargerType(chargers[n - 1]) == TypeName(DynamicCharger) then 1 else 0
  }

  /** The length in km of a link as column 0 of its row holds it, or 0 when the link has no row. */
  function LinkKm(rows: seq<Row>, edgeMapping: map<string, int>, id: string): real {
    if id in edgeMapping && 0 <= edgeMapping[id] < |rows| && |rows[edgeMapping[id]]| > 0
    then rows[edgeMapping[id]][0] * 0.001
    else 0.0
  }

  /** The dynamic price per km summed over the links of the dynamic chargers among the first n. */
  function DynamicCost(rows: seq<Row>, chargers: seq<XmlCharger>, n: nat, edgeMapping: map<string, int>): real
    requires n <= |chargers|
  {
    if n == 0 then 0.0
    else
      DynamicCost(rows, chargers, n - 1, edgeMapping)
      + if ChargerType(chargers[n - 1]) == TypeName(DynamicCharger) then 2600000.0 * LinkKm(rows, edgeMapping, chargers[n - 1].link) else 0.0
  }

  /**
   * The returned cost is the static price per static charger plus the
   * dynamic price per km of each dynamic charger's link, its length read
   * from column 0 as the pass found it; without prices a pass succeeds only
   * when there is neither.
   */
  lemma {:induction false} PlaceChargersCost(rows: seq<Row>, chargers: seq<XmlCharger>, n: nat, edgeMapping: map<string, int>,
                                             m: map<string, int>, v: Variant)
    requires n <= |chargers| && Untouched(chargers, n, m, 0)
    ensures var r := PlaceChargers(rows, chargers, n, edgeMapping, m, v);
      r.Ok? ==>
        && r.value.1 == 120000.0 * StaticCount(chargers, n) as real + DynamicCost(rows, chargers, n, edgeMapping)
        && (v.Ev? ==> StaticCount(chargers, n) == 0 && DynamicCount(chargers, n) == 0)
  {
    var r := PlaceChargers(rows, chargers, n, edgeMapping, m, v);
    if n > 0 && r.Ok? {
      var prev := PlaceChargers(rows, chargers, n - 1, edgeMapping, m, v);
      assert prev.Ok? && r == PlaceCharger(prev.value, chargers[n - 1], edgeMapping, m, v);
      var acc := prev.value;
      PlaceChargersCost(rows, chargers, n - 1, edgeMapping, m, v);
      PlaceChargersKeeps(rows, chargers, n - 1, edgeMapping, m, v, 0);
      PlaceChargerCost(acc, rows, chargers[n - 1], edgeMapping, m, v, r.value);
    }
  }

  /** One charger's share of the cost, with its link's length read from rows whose column 0 the placement kept. */
  lemma PlaceChargerCost(acc: (seq<Row>, real), rows: seq<Row>, c: XmlCharger, edgeMapping: map<string, int>,
                         m: map<string, int>, v: Variant, r: (seq<Row>, real))
    requires |acc.0| == |rows|
    requires forall k :: 0 <= k < |rows| ==> |acc.0[k]| == |rows[k]| && (0 < |rows[k]| ==> acc.0[k][0] == rows[k][0])
    requires PlaceCharger(acc, c, edgeMapping, m, v) == Ok(r)
    ensures r.1 == acc.1 + (if ChargerType(c) == TypeName(StaticCharger) then 120000.0 else 0.0)
                         + (if ChargerType(c) == TypeName(DynamicCharger) then 2600000.0 * LinkKm(rows, edgeMapping, c.link) else 0.0)
    ensures v.Ev? ==> ChargerType(c) != TypeName(StaticCharger) && ChargerType(c) != TypeName(DynamicCharger)
  {
  }

  /** The three flag columns exist and "none" shares its column with neither of the others. */
  predicate FlagColumns(m: map<string, int>) {
    && TypeName(StaticCharger) in m && TypeName(DynamicCharger) in m && TypeName(NoneCharger) in m
    && m[TypeName(NoneCharger)] != m[TypeName(StaticCharger)]
    && m[TypeName(NoneCharger)] != m[TypeName(DynamicCharger)]
  }

  /** The three flag columns lie inside the row. */
  predicate Fits(row: Row, m: map<string, int>)
    requires FlagColumns(m)
  {
    && 0 <= m[TypeName(StaticCharger)] < |row|
    && 0 <= m[TypeName(DynamicCharger)] < |row|
    && 0 <= m[TypeName(NoneCharger)] < |row|
  }

  /** The link has a static or a dynamic charger. */
  predicate HasCharger(row: Row, m: map<string, int>)
    requires FlagColumns(m) && Fits(row, m)
  {
    row[m[TypeName(StaticCharger)]] == 1.0 || row[m[TypeName(DynamicCharger)]] == 1.0
  }

  /** A row after the final pass has touched it. */
  function NoneRule(row: Row, m: map<string, int>): Row
    requires FlagColumns(m) && Fits(row, m)
  {
    if HasCharger(row, m) then row else row[m[TypeName(NoneCharger)] := 1.0]
  }

  /** When the flag columns fit, the final pass on a row never fails, and it keeps the charger flags. */
  lemma MarkNoneRowRule(row: Row, m: map<string, int>)
    requires FlagColumns(m) && Fits(row, m)
    ensures MarkNoneRow(row, m) == Ok(NoneRule(row, m))
    ensures Fits(NoneRule(row, m), m) && (HasCharger(NoneRule(row, m), m) <==> HasCharger(row, m))
    ensures NoneRule(NoneRule(row, m), m) == NoneRule(row, m)
  {
  }

  /**
   * out is rows after the none rule on the rows of the first n links: every
   * row a link id leads to gets the rule, every other row is left as it was.
   */
  predicate Marked(rows: seq<Row>, links: seq<XmlLink>, n: nat, edgeMapping: map<string, int>, m: map<string, int>,
                   out: seq<Row>)
    requires n <= |links| && FlagColumns(m) && forall k :: 0 <= k < |rows| ==> Fits(rows[k], m)
  {
    && |out| == |rows|
    && (forall k :: 0 <= k < |rows| ==> out[k] == rows[k] || out[k] == NoneRule(rows[k], m))
    && (forall i :: 0 <= i < n ==>
          && links[i].id in edgeMapping && 0 <= edgeMapping[links[i].id] < |rows|
          && out[edgeMapping[links[i].id]] == NoneRule(rows[edgeMapping[links[i].id]], m))
  }

  /** The none rule on one more link's row keeps the rows marked. */
  lemma MarkedStep(rows: seq<Row>, links: seq<XmlLink>, n: nat, edgeMapping: map<string, int>, m: map<string, int>,
                   acc: seq<Row>, k: nat)
    requires n < |links| && FlagColumns(m) && forall k :: 0 <= k < |rows| ==> Fits(rows[k], m)
    requires Marked(rows, links, n, edgeMapping, m, acc) && RowIndex(edgeMapping, rows, links[n].id) == Ok(k)
    ensures MarkNoneRow(acc[k], m) == Ok(NoneRule(rows[k], m))
    ensures Marked(rows, links, n + 1, edgeMapping, m, acc[k := NoneRule(rows[k], m)])
  {
    MarkNoneRowRule(rows[k], m);
    MarkNoneRowRule(acc[k], m);
  }

  /**
   * The final pass over the first n links fails exactly when a link id
   * has no row; otherwise it leaves the rows marked.
   */
  lemma {:induction false} MarkNoneRows(rows: seq<Row>, links: seq<XmlLink>, n: nat, edgeMapping: map<string, int>,
                                        m: map<string, int>)
    requires n <= |links| && FlagColumns(m) && forall k :: 0 <= k < |rows| ==> Fits(rows[k], m)
    ensures var r := MarkNone(rows, links, n, edgeMapping, m);
      && (r.Ok? <==> forall i :: 0 <= i < n ==> RowIndex(edgeMapping, rows, links[i].id).Ok?)
      && (r.Ok? ==> Marked(rows, links, n, edgeMapping, m, r.value))
  {
    if n > 0 {
      MarkNoneRows(rows, links, n - 1, edgeMapping, m);
      var prev := MarkNone(rows, links, n - 1, edgeMapping, m);
      if prev.Ok? {
        var id := links[n - 1].id;
        assert RowIndex(edgeMapping, prev.value, id) == RowIndex(edgeMapping, rows, id);
        if RowIndex(edgeMapping, rows, id).Ok? {
          MarkedStep(rows, links, n - 1, edgeMapping, m, prev.value, edgeMapping[id]);
        }
      }
    }
  }

  /** The charger list holds each of the three kinds. */
  predicate AllKinds(types: seq<ChargerKind>) {
    NoneCharger in types && DynamicCharger in types && StaticCharger in types
  }

  /** With each kind listed once, the three flag columns are distinct charger columns inside the row. */
  lemma FlagLayout(types: seq<ChargerKind>)
    requires DistinctKinds(types) && AllKinds(types)
    ensures var m := AttrMapping(types);
      && FlagColumns(m)
      && 3 <= m[TypeName(StaticCharger)] < |m| && 3 <= m[TypeName(DynamicCharger)] < |m| && 3 <= m[TypeName(NoneCharger)] < |m|
      && m[TypeName(StaticCharger)] != m[TypeName(DynamicCharger)]
  {
    AttrColumns(types);
    AttrLayout(types);
  }

  /** With distinct kinds, only the "none" key has the none column. */
  lemma NoneColumnOwner(types: seq<ChargerKind>, key: string)
    requires DistinctKinds(types) && NoneCharger in types && key in AttrMapping(types)
    ensures TypeName(NoneCharger) in AttrMapping(types)
    ensures AttrMapping(types)[key] == AttrMapping(types)[TypeName(NoneCharger)] ==> key == TypeName(NoneCharger)
  {
    AttrLayout(types);
  }

  /** Only length, free speed and capacity own one of the first three columns. */
  predicate BaseOwned(m: map<string, int>) {
    forall key :: key in m && 0 <= m[key] < 3 ==> IsBaseKey(key)
  }

  lemma MappingBaseOwned(types: seq<ChargerKind>)
    ensures BaseOwned(AttrMapping(types))
  {
    forall key | key in AttrMapping(types) && 0 <= AttrMapping(types)[key] < 3 ensures IsBaseKey(key) {
      KeyOfMapping(types, key);
    }
  }

  /** The rows parse_matsim_network leaves: one per link, each as wide as the attribute mapping. */
  predicate Shaped(rows: seq<Row>, links: seq<XmlLink>, types: seq<ChargerKind>) {
    Rectangular(rows, |links|, |AttrMapping(types)|)
  }

  /** n rows of the same width. */
  predicate Rectangular(rows: seq<Row>, n: nat, width: nat) {
    |rows| == n && forall k :: 0 <= k < |rows| ==> |rows[k]| == width
  }

  /** Every link id has a row. */
  predicate Covers(edgeMapping: map<string, int>, links: seq<XmlLink>, n: nat) {
    forall i :: 0 <= i < |links| ==> links[i].id in edgeMapping && 0 <= edgeMapping[links[i].id] < n
  }

  /** Every link id leads to its own row. */
  predicate Identity(edgeMapping: map<string, int>, links: seq<XmlLink>) {
    forall k :: 0 <= k < |links| ==> links[k].id in edgeMapping && edgeMapping[links[k].id] == k
  }

  /** The edge index of parse_matsim_network covers every link, and with distinct ids each link's own row. */
  lemma EdgeIndex(links: seq<XmlLink>)
    ensures Covers(FlowSimDataset.Indexing(LinkIds(links)), links, |links|)
    ensures FlowSimDataset.Distinct(LinkIds(links)) ==> Identity(FlowSimDataset.Indexing(LinkIds(links)), links)
  {
    var ids := LinkIds(links);
    forall i | 0 <= i < |links| ensures links[i].id in FlowSimDataset.Indexing(ids) {
      assert ids[i] == links[i].id;
    }
    if FlowSimDataset.Distinct(ids) {
      FlowSimDataset.IndexingBijective(ids);
      forall k | 0 <= k < |links| ensures FlowSimDataset.Indexing(ids)[links[k].id] == k {
        assert ids[k] == links[k].id;
      }
    }
  }

  /** Shaped rows hold the three flag columns. */
  lemma ShapedFits(rows: seq<Row>, links: seq<XmlLink>, types: seq<ChargerKind>)
    requires DistinctKinds(types) && AllKinds(types) && Shaped(rows, links, types)
    ensures var m := AttrMapping(types); FlagColumns(m) && forall k :: 0 <= k < |rows| ==> Fits(rows[k], m)
  {
    FlagLayout(types);
  }

  /**
   * When every link id has a row the final pass never fails; it applies the
   * none rule to every row a link leads to, so to every row when each link
   * leads to its own.
   */
  lemma MarkAllRows(rows: seq<Row>, links: seq<XmlLink>, edgeMapping: map<string, int>, m: map<string, int>)
    requires FlagColumns(m) && (forall k :: 0 <= k < |rows| ==> Fits(rows[k], m)) && Covers(edgeMapping, links, |rows|)
    ensures var r := MarkNone(rows, links, |links|, edgeMapping, m);
      && r.Ok? && |r.value| == |rows|
      && (forall k :: 0 <= k < |rows| ==> r.value[k] == rows[k] || r.value[k] == NoneRule(rows[k], m))
      && (Identity(edgeMapping, links) && |rows| == |links| ==> forall k :: 0 <= k < |rows| ==> r.value[k] == NoneRule(rows[k], m))
  {
    MarkNoneRows(rows, links, |links|, edgeMapping, m);
    if Identity(edgeMapping, links) && |rows| == |links| {
      forall k | 0 <= k < |rows| ensures MarkNone(rows, links, |links|, edgeMapping, m).value[k] == NoneRule(rows[k], m) {
        assert edgeMapping[links[k].id] == k;
      }
    }
  }

  /**
   * When every link id has a row, the charger pass fails exactly when
   * placing a charger fails, and afterwards only the none column differs
   * from the placed rows.
   */
  lemma ChargerPassRows(rows: seq<Row>, links: seq<XmlLink>, chargers: seq<XmlCharger>, edgeMapping: map<string, int>,
                        m: map<string, int>, v: Variant)
    requires FlagColumns(m) && (forall k :: 0 <= k < |rows| ==> Fits(rows[k], m)) && Covers(edgeMapping, links, |rows|)
    ensures var placed := PlaceChargers(rows, chargers, |chargers|, edgeMapping, m, v);
      var r := ChargerPass(rows, links, chargers, edgeMapping, m, v);
      && (r.Ok? <==> placed.Ok?)
      && (r.Ok? ==>
            && r.value.1 == placed.value.1 && |r.value.0| == |rows|
            && forall k, j :: 0 <= k < |rows| && 0 <= j < |rows[k]| && j != m[TypeName(NoneCharger)] ==>
                 |r.value.0[k]| == |rows[k]| && r.value.0[k][j] == placed.value.0[k][j])
  {
    var placed := PlaceChargers(rows, chargers, |chargers|, edgeMapping, m, v);
    if placed.Ok? {
      var p := placed.value.0;
      assert forall k :: 0 <= k < |p| ==> Fits(p[k], m);
      MarkAllRows(p, links, edgeMapping, m);
    }
  }

  /** Placing chargers whose types are not base keys leaves the base columns as they were. */
  lemma PlacedKeepsBase(rows: seq<Row>, chargers: seq<XmlCharger>, edgeMapping: map<string, int>, m: map<string, int>, v: Variant)
    requires BaseOwned(m) && forall i :: 0 <= i < |chargers| ==> !IsBaseKey(ChargerType(chargers[i]))
    ensures var r := PlaceChargers(rows, chargers, |chargers|, edgeMapping, m, v);
      r.Ok? ==> forall k, j :: 0 <= k < |rows| && 0 <= j < 3 && j < |rows[k]| ==> r.value.0[k][j] == rows[k][j]
  {
    PlaceChargersKeeps(rows, chargers, |chargers|, edgeMapping, m, v, 0);
    PlaceChargersKeeps(rows, chargers, |chargers|, edgeMapping, m, v, 1);
    PlaceChargersKeeps(rows, chargers, |chargers|, edgeMapping, m, v, 2);
  }

  /**
   * On the network's own rows and edge index, the charger pass never
   * changes the length, free speed or capacity of a link as long as no
   * charger's type names one of those columns.
   */
  lemma ChargerPassKeepsBase(rows: seq<Row>, links: seq<XmlLink>, chargers: seq<XmlCharger>, types: seq<ChargerKind>, v: Variant)
    requires DistinctKinds(types) && AllKinds(types) && Shaped(rows, links, types)
    requires forall i :: 0 <= i < |chargers| ==> !IsBaseKey(ChargerType(chargers[i]))
    ensures var r := ChargerPass(rows, links, chargers, FlowSimDataset.Indexing(LinkIds(links)), AttrMapping(types), v);
      r.Ok? ==>
        forall k, j :: 0 <= k < |rows| && 0 <= j < 3 && j < |rows[k]| ==>
          |r.value.0| == |rows| && |r.value.0[k]| == |rows[k]| && r.value.0[k][j] == rows[k][j]
  {
    var em := FlowSimDataset.Indexing(LinkIds(links));
    var m := AttrMapping(types);
    ShapedFits(rows, links, types);
    FlagLayout(types);
    EdgeIndex(links);
    ChargerPassRows(rows, links, chargers, em, m, v);
    MappingBaseOwned(types);
    PlacedKeepsBase(rows, chargers, em, m, v);
  }


  /**
   * The cost the pass returns: the static price per static charger plus
   * the dynamic price per km of each dynamic charger's link, read from the
   * rows the pass was given; without prices the pass succeeds only when
   * there is neither kind of charger.
   */
  lemma ChargerPassCost(rows: seq<Row>, links: seq<XmlLink>, chargers: seq<XmlCharger>, types: seq<ChargerKind>, v: Variant)
    requires DistinctKinds(types) && AllKinds(types) && Shaped(rows, links, types)
    requires forall i :: 0 <= i < |chargers| ==> !IsBaseKey(ChargerType(chargers[i]))
    ensures var em := FlowSimDataset.Indexing(LinkIds(links));
      var r := ChargerPass(rows, links, chargers, em, AttrMapping(types), v);
      r.Ok? ==>
        && r.value.1 == 120000.0 * StaticCount(chargers, |chargers|) as real + DynamicCost(rows, chargers, |chargers|, em)
        && (v.Ev? ==> StaticCount(chargers, |chargers|) == 0 && DynamicCount(chargers, |chargers|) == 0)
  {
    var em := FlowSimDataset.Indexing(LinkIds(links));
    var m := AttrMapping(types);
    ShapedFits(rows, links, types);
    EdgeIndex(links);
    ChargerPassRows(rows, links, chargers, em, m, v);
    MappingBaseOwned(types);
    PlaceChargersCost(rows, chargers, |chargers|, em, m, v);
  }

  /** No charger in the file has the type "none". */
  predicate NoNoneType(chargers: seq<XmlCharger>) {
    forall i :: 0 <= i < |chargers| ==> ChargerType(chargers[i]) != TypeName(NoneCharger)
  }

  /**
   * After the pass, with distinct link ids, every link without a static or
   * a dynamic flag has its "none" flag set; when no charger has the type
   * "none", the "none" flag is set exactly on those links.
   */
  lemma ChargerPassNoneFlag(rows: seq<Row>, links: seq<XmlLink>, chargers: seq<XmlCharger>, types: seq<ChargerKind>, v: Variant)
    requires DistinctKinds(types) && AllKinds(types) && Shaped(rows, links, types)
    requires FlowSimDataset.Distinct(LinkIds(links))
    ensures var m := AttrMapping(types);
      var r := ChargerPass(rows, links, chargers, FlowSimDataset.Indexing(LinkIds(links)), m, v);
      && FlagColumns(m)
      && (r.Ok? ==>
            forall k :: 0 <= k < |rows| ==>
              && |r.value.0| == |rows| && Fits(r.value.0[k], m)
              && (!HasCharger(r.value.0[k], m) ==> r.value.0[k][m[TypeName(NoneCharger)]] == 1.0)
              && (NoNoneType(chargers) ==> r.value.0[k][m[TypeName(NoneCharger)]] == 1.0 ==> !HasCharger(r.value.0[k], m)))
  {
    var em := FlowSimDataset.Indexing(LinkIds(links));
    var m := AttrMapping(types);
    var none := TypeName(NoneCharger);
    ShapedFits(rows, links, types);
    FlagLayout(types);
    EdgeIndex(links);
    var placed := PlaceChargers(rows, chargers, |chargers|, em, m, v);
    if placed.Ok? {
      var p := placed.value.0;
      assert forall k :: 0 <= k < |p| ==> Fits(p[k], m);
      MarkAllRows(p, links, em, m);
      var out := MarkNone(p, links, |links|, em, m).value;
      assert ChargerPass(rows, links, chargers, em, m, v) == Ok((out, placed.value.1));
      if NoNoneType(chargers) {
        NoneColumnClear(rows, chargers, types, em, v);
      }
      NoneRuleRows(p, out, m, NoNoneType(chargers));
    }
  }

  /** Without a charger of type "none", placing chargers leaves every row's none flag at 0. */
  lemma NoneColumnClear(rows: seq<Row>, chargers: seq<XmlCharger>, types: seq<ChargerKind>,
                        em: map<string, int>, v: Variant)
    requires DistinctKinds(types) && AllKinds(types) && NoNoneType(chargers)
    requires forall k :: 0 <= k < |rows| ==> |rows[k]| == |AttrMapping(types)|
    ensures var m := AttrMapping(types);
      var r := PlaceChargers(rows, chargers, |chargers|, em, m, v);
      && TypeName(NoneCharger) in m
      && (r.Ok? ==> forall k :: 0 <= k < |rows| ==>
            0 <= m[TypeName(NoneCharger)] < |r.value.0[k]| && r.value.0[k][m[TypeName(NoneCharger)]] == 0.0)
  {
    var m := AttrMapping(types);
    var none := TypeName(NoneCharger);
    FlagLayout(types);
    forall i | 0 <= i < |chargers| && ChargerType(chargers[i]) in m ensures m[ChargerType(chargers[i])] != m[none] {
      NoneColumnOwner(types, ChargerType(chargers[i]));
    }
    PlaceChargersKeeps(rows, chargers, |chargers|, em, m, v, m[none]);
  }

  /**
   * Rows after the none rule: a row with no charger flag has its none flag
   * set, and when the none flags were all 0 before, a set none flag means
   * the row has no charger flag.
   */
  lemma NoneRuleRows(p: seq<Row>, out: seq<Row>, m: map<string, int>, cleared: bool)
    requires FlagColumns(m) && |out| == |p|
    requires forall k :: 0 <= k < |p| ==>
      && Fits(p[k], m) && out[k] == NoneRule(p[k], m)
      && (cleared ==> p[k][m[TypeName(NoneCharger)]] == 0.0)
    ensures forall k :: 0 <= k < |out| ==>
      && Fits(out[k], m)
      && (!HasCharger(out[k], m) ==> out[k][m[TypeName(NoneCharger)]] == 1.0)
      && (cleared ==> out[k][m[TypeName(NoneCharger)]] == 1.0 ==> !HasCharger(out[k], m))
  {
    forall k | 0 <= k < |out|
      ensures Fits(out[k], m)
      ensures !HasCharger(out[k], m) ==> out[k][m[TypeName(NoneCharger)]] == 1.0
      ensures cleared ==> out[k][m[TypeName(NoneCharger)]] == 1.0 ==> !HasCharger(out[k], m)
    {
      MarkNoneRowRule(p[k], m);
    }
  }

  lemma {:induction false} PlaceChargersErrSticks(rows: seq<Row>, chargers: seq<XmlCharger>, i: nat, n: nat,
                                                  edgeMapping: map<string, int>, m: map<string, int>, v: Variant)
    requires i <= n <= |chargers| && PlaceChargers(rows, chargers, i, edgeMapping, m, v).Err?
    ensures PlaceChargers(rows, chargers, n, edgeMapping, m, v) == PlaceChargers(rows, chargers, i, edgeMapping, m, v)
    decreases n
  {
    if n > i {
      PlaceChargersErrSticks(rows, chargers, i, n - 1, edgeMapping, m, v);
    }
  }

  lemma {:induction false} MarkNoneErrSticks(rows: seq<Row>, links: seq<XmlLink>, i: nat, n: nat,
                                             edgeMapping: map<string, int>, m: map<string, int>)
    requires i <= n <= |links| && MarkNone(rows, links, i, edgeMapping, m).Err?
    ensures MarkNone(rows, links, n, edgeMapping, m) == MarkNone(rows, links, i, edgeMapping, m)
    decreases n
  {
    if n > i {
      MarkNoneErrSticks(rows, links, i, n - 1, edgeMapping, m);
    }
  }

  // ---------------------------------------------------------------------------
  // _min_max_normalize
  // ---------------------------------------------------------------------------

  /** Column j of the rows. */
  function Column(rows: seq<Row>, j: nat): (c: seq<real>)
    requires forall k :: 0 <= k < |rows| ==> j < |rows[k]|
    ensures |c| == |rows| && forall k :: 0 <= k < |rows| ==> c[k] == rows[k][j]
  {
    seq(|rows|, k requires 0 <= k < |rows| => rows[k][j])
  }

  /** torch.min of a column: a value of the column no larger than any other. */
  function Min(xs: seq<real>): (r: real)
    requires |xs| > 0
    ensures r in xs && forall k :: 0 <= k < |xs| ==> r <= xs[k]
  {
    if |xs| == 1 then xs[0]
    else
      var rest := Min(xs[1..]);
      assert forall k :: 1 <= k < |xs| ==> xs[k] == xs[1..][k - 1];
      if xs[0] <= rest then xs[0] else rest
  }

  /** torch.max of a column: a value of the column no smaller than any other. */
  function MaxOf(xs: seq<real>): (r: real)
    requires |xs| > 0
    ensures r in xs && forall k :: 0 <= k < |xs| ==> xs[k] <= r
  {
    if |xs| == 1 then xs[0]
    else
      var rest := MaxOf(xs[1..]);
      assert forall k :: 1 <= k < |xs| ==> xs[k] == xs[1..][k - 1];
      if xs[0] >= rest then xs[0] else rest
  }

  /** max_mins: the column minima (row 0) and maxima (row 1) of length, free speed and capacity. */
  datatype Bounds = Bounds(mins: Row, maxs: Row)

  predicate Wide(rows: seq<Row>) {
    forall k :: 0 <= k < |rows| ==> 3 <= |rows[k]|
  }

  function MaxMins(rows: seq<Row>): (b: Bounds)
    requires |rows| > 0 && Wide(rows)
    ensures |b.mins| == 3 && |b.maxs| == 3
    ensures forall j, k :: 0 <= j < 3 && 0 <= k < |rows| ==> b.mins[j] <= rows[k][j] <= b.maxs[j]
  {
    Bounds(seq(3, j requires 0 <= j < 3 => Min(Column(rows, j))), seq(3, j requires 0 <= j < 3 => MaxOf(Column(rows, j))))
  }

  /** No column is constant, so the forward normalisation divides by a non-zero span. */
  predicate Spread(b: Bounds) {
    |b.mins| == 3 && |b.maxs| == 3 && forall j :: 0 <= j < 3 ==> b.mins[j] != b.maxs[j]
  }

  /**
   * The base columns whose minimum equals their maximum. torch divides 0 by
   * 0 there, so after the forward normalisation every cell of such a column
   * is NaN; the model keeps 0.0 in those cells and records the NaN here.
   */
  function NanColumns(b: Bounds): (cols: set<int>)
    requires |b.mins| == 3 && |b.maxs| == 3
    ensures cols == {} <==> Spread(b)
  {
    var cols := set j | 0 <= j < 3 && b.mins[j] == b.maxs[j];
    assert forall j :: 0 <= j < 3 ==> (j in cols <==> b.mins[j] == b.maxs[j]);
    cols
  }

  /** A base column is NaN after normalisation exactly when all its cells are equal. */
  lemma ConstantColumnIsNan(rows: seq<Row>, j: int)
    requires |rows| > 0 && Wide(rows) && 0 <= j < 3
    ensures j in NanColumns(MaxMins(rows)) <==> forall k :: 0 <= k < |rows| ==> rows[k][j] == rows[0][j]
  {
    var b := MaxMins(rows);
    var c := Column(rows, j);
    assert b.mins[j] == Min(c) && b.maxs[j] == MaxOf(c);
    if forall k :: 0 <= k < |rows| ==> rows[k][j] == rows[0][j] {
      assert forall k :: 0 <= k < |c| ==> c[k] == rows[0][j];
      assert Min(c) == rows[0][j] && MaxOf(c) == rows[0][j];
    }
  }

  function Normalize(x: real, lo: real, hi: real): real
    requires lo != hi
  {
    (x - lo) / (hi - lo)
  }

  function Denormalize(y: real, lo: real, hi: real): real {
    y * (hi - lo) + lo
  }

  /** The reverse normalisation undoes the forward one. */
  lemma NormalizeRoundTrip(x: real, lo: real, hi: real)
    requires lo != hi
    ensures Denormalize(Normalize(x, lo, hi), lo, hi) == x
  {
    var y := Normalize(x, lo, hi);
    assert y * (hi - lo) == x - lo;
  }

  lemma NormalizeScales(x: real, lo: real, hi: real)
    requires lo != hi
    ensures Normalize(x, lo, hi) * (hi - lo) == x - lo
  {
  }

  /** A y with y * d == e for e in [0, d] lies in [0, 1], at the ends exactly when e does. */
  lemma UnitScale(y: real, d: real, e: real)
    requires d > 0.0 && 0.0 <= e <= d && y * d == e
    ensures 0.0 <= y <= 1.0
    ensures e == 0.0 ==> y == 0.0
    ensures e == d ==> y == 1.0
  {
    MulSign(0.0 - y, d);
    MulSign(y - 1.0, d);
    MulSign(y, d);
    MulSign(1.0 - y, d);
  }

  lemma MulSign(a: real, d: real)
    requires d > 0.0
    ensures a > 0.0 ==> a * d > 0.0
  {
  }

  /** A value between the column's minimum and maximum lands in [0, 1], at 0 for the minimum and 1 for the maximum. */
  lemma NormalizeRange(x: real, lo: real, hi: real)
    requires lo < hi && lo <= x <= hi
    ensures 0.0 <= Normalize(x, lo, hi) <= 1.0
    ensures Normalize(lo, lo, hi) == 0.0 && Normalize(hi, lo, hi) == 1.0
  {
    NormalizeScales(x, lo, hi);
    UnitScale(Normalize(x, lo, hi), hi - lo, x - lo);
    NormalizeScales(lo, lo, hi);
    UnitScale(Normalize(lo, lo, hi), hi - lo, lo - lo);
    NormalizeScales(hi, lo, hi);
    UnitScale(Normalize(hi, lo, hi), hi - lo, hi - lo);
  }

  /**
   * _min_max_normalize on columns 0..2 of one row, forward or reverse; the
   * charger columns are not touched. A forward cell of a NaN column holds 0.0.
   */
  function NormalizeRow(row: Row, b: Bounds, reverse: bool): (r: Row)
    requires 3 <= |row| && |b.mins| == 3 && |b.maxs| == 3
    ensures |r| == |row| && r[3..] == row[3..]
  {
    seq(|row|, j requires 0 <= j < |row| =>
      if j >= 3 then row[j]
      else if reverse then Denormalize(row[j], b.mins[j], b.maxs[j])
      else if b.mins[j] == b.maxs[j] then 0.0
      else Normalize(row[j], b.mins[j], b.maxs[j]))
  }

  function NormalizeRows(rows: seq<Row>, b: Bounds, reverse: bool): (r: seq<Row>)
    requires Wide(rows) && |b.mins| == 3 && |b.maxs| == 3
    ensures |r| == |rows| && Wide(r) && forall k :: 0 <= k < |rows| ==> r[k] == NormalizeRow(rows[k], b, reverse)
  {
    seq(|rows|, k requires 0 <= k < |rows| => NormalizeRow(rows[k], b, reverse))
  }

  /** Reverse normalisation with the same bounds gives the rows back. */
  lemma NormalizeRowsRoundTrip(rows: seq<Row>, b: Bounds)
    requires Wide(rows) && Spread(b)
    ensures NormalizeRows(NormalizeRows(rows, b, false), b, true) == rows
  {
    var back := NormalizeRows(NormalizeRows(rows, b, false), b, true);
    forall k | 0 <= k < |rows| ensures back[k] == rows[k] {
      forall j | 0 <= j < 3 ensures back[k][j] == rows[k][j] {
        NormalizeRoundTrip(rows[k][j], b.mins[j], b.maxs[j]);
      }
      assert back[k][3..] == rows[k][3..];
      forall j | 3 <= j < |rows[k]| ensures back[k][j] == rows[k][j] {
        assert back[k][j] == back[k][3..][j - 3];
      }
    }
  }

  /** Normalised by their own bounds, the cells of the first three columns that are not NaN lie in [0, 1]. */
  lemma NormalizedInUnit(rows: seq<Row>)
    requires |rows| > 0 && Wide(rows)
    ensures var b := MaxMins(rows); var n := NormalizeRows(rows, b, false);
      forall k, j :: 0 <= k < |rows| && 0 <= j < 3 && j !in NanColumns(b) ==> 0.0 <= n[k][j] <= 1.0
  {
    var b := MaxMins(rows);
    forall k, j | 0 <= k < |rows| && 0 <= j < 3 && j !in NanColumns(b) ensures 0.0 <= NormalizeRows(rows, b, false)[k][j] <= 1.0 {
      NormalizeRange(rows[k][j], b.mins[j], b.maxs[j]);
    }
  }

  // ---------------------------------------------------------------------------
  // The dataset object
  // ---------------------------------------------------------------------------

  /**
   * MatsimXMLDataset after parse_matsim_network: the indices, positions and
   * edges are fixed, the attribute rows (edge_attr) and max_mins are
   * rewritten in place.
   */
  class Dataset {
    const types: seq<ChargerKind>
    const variant: Variant
    const links: seq<XmlLink>
    const edgeAttrMapping: map<string, int>
    const nodeMapping: map<string, int>
    const edgeMapping: map<string, int>
    const positions: seq<(real, real)>
    const edges: seq<(int, int)>
    const maxChargerCost: real
    const width: nat
    var edgeAttr: seq<Row>
    var maxMins: Bounds

    /** The rows keep one row per link, as wide as the attribute mapping, indexed by the network's own edge index. */
    ghost predicate Valid()
      reads this
    {
      && edgeAttrMapping == AttrMapping(types)
      && edgeMapping == FlowSimDataset.Indexing(LinkIds(links))
      && width == |edgeAttrMapping| >= 3
      && Rectangular(edgeAttr, |links|, width)
    }

    /** The fields a successful parse_matsim_network leaves; max_mins is not set yet. */
    constructor (g: Graph, links: seq<XmlLink>, types: seq<ChargerKind>, v: Variant)
      requires g.edgeMapping == FlowSimDataset.Indexing(LinkIds(links)) && Shaped(g.rows, links, types)
      ensures Valid()
      ensures this.types == types && variant == v && this.links == links && edgeAttrMapping == AttrMapping(types)
      ensures nodeMapping == g.nodeMapping && edgeMapping == g.edgeMapping && positions == g.positions
      ensures edges == g.edges && maxChargerCost == g.maxChargerCost && edgeAttr == g.rows && maxMins == Bounds([], [])
    {
      this.types := types;
      variant := v;
      this.links := links;
      edgeAttrMapping := AttrMapping(types);
      nodeMapping := g.nodeMapping;
      edgeMapping := g.edgeMapping;
      positions := g.positions;
      edges := g.edges;
      maxChargerCost := g.maxChargerCost;
      edgeAttr := g.rows;
      MappingWidth(types);
      width := |AttrMapping(types)|;
      maxMins := Bounds([], []);
    }

    /**
     * parse_charger_network_get_charger_cost: clears the charger columns,
     * places every charger of the file in order, marks the links left
     * without one and returns the cost. On an error the rows hold whatever
     * was written before it.
     */
    method ParseChargerNetworkGetChargerCost(chargers: seq<XmlCharger>) returns (r: Result<real>)
      requires Valid()
      modifies this
      ensures Valid() && maxMins == old(maxMins)
      ensures var pass := ChargerPass(old(edgeAttr), links, chargers, edgeMapping, edgeAttrMapping, variant);
        && (pass.Ok? ==> r == Ok(pass.value.1) && edgeAttr == pass.value.0)
        && (pass.Err? ==> r == Err(pass.error))
    {
      r := PlaceAll(chargers);
      if r.Err? {
        return;
      }
      var marked := MarkLinksWithoutCharger();
      if marked.Err? {
        r := Err(marked.error);
      }
    }

    /**
     * The end of the constructor: max_mins records the column minima and
     * maxima of length, free speed and capacity, and those columns are
     * normalised with them. A constant column becomes NaN, as torch's 0/0
     * does, and the constructor goes on.
     */
    method NormalizeBaseColumns()
      requires Valid() && |links| > 0
      modifies this
      ensures Valid()
      ensures maxMins == MaxMins(old(edgeAttr)) && edgeAttr == NormalizeRows(old(edgeAttr), maxMins, false)
    {
      MappingWidth(types);
      maxMins := MaxMins(edgeAttr);
      edgeAttr := NormalizeRows(edgeAttr, maxMins, false);
    }

    /** The charger loop: clears the charger columns, then sets each charger's flag and adds its cost. */
    method PlaceAll(chargers: seq<XmlCharger>) returns (r: Result<real>)
      requires Rectangular(edgeAttr, |links|, width)
      modifies this`edgeAttr
      ensures Rectangular(edgeAttr, |links|, width)
      ensures var placed := PlaceChargers(old(edgeAttr), chargers, |chargers|, edgeMapping, edgeAttrMapping, variant);
        && (placed.Ok? ==> r == Ok(placed.value.1) && edgeAttr == placed.value.0)
        && (placed.Err? ==> r == Err(placed.error))
    {
      ghost var rows := edgeAttr;
      var cost := 0.0;
      edgeAttr := ClearAll(edgeAttr);
      for i := 0 to |chargers|
        invariant PlaceChargers(rows, chargers, i, edgeMapping, edgeAttrMapping, variant) == Ok((edgeAttr, cost))
      {
        var c := chargers[i];
        var add := ChargerCost(edgeAttr, c, edgeMapping, variant);
        if add.Err? {
          PlaceChargersFail(rows, chargers, i, edgeMapping, edgeAttrMapping, variant, (edgeAttr, cost), add.error);
          return Err(add.error);
        }
        var k := RowIndex(edgeMapping, edgeAttr, c.link);
        if k.Err? {
          PlaceChargersFail(rows, chargers, i, edgeMapping, edgeAttrMapping, variant, (edgeAttr, cost), k.error);
          return Err(k.error);
        }
        var flagged := SetFlag(edgeAttr, k.value, ChargerType(c), edgeAttrMapping);
        if flagged.Err? {
          PlaceChargersFail(rows, chargers, i, edgeMapping, edgeAttrMapping, variant, (edgeAttr, cost), flagged.error);
          return Err(flagged.error);
        }
        PlaceChargersNext(rows, chargers, i, edgeMapping, edgeAttrMapping, variant, (edgeAttr, cost), add.value, k.value,
                          flagged.value);
        edgeAttr := flagged.value;
        cost := cost + add.value;
      }
      r := Ok(cost);
    }

    /** The final loop over the network's links: the none rule on each link's row. */
    method MarkLinksWithoutCharger() returns (r: Result<()>)
      requires Rectangular(edgeAttr, |links|, width)
      modifies this`edgeAttr
      ensures Rectangular(edgeAttr, |links|, width)
      ensures var marked := MarkNone(old(edgeAttr), links, |links|, edgeMapping, edgeAttrMapping);
        && (marked.Ok? ==> r == Ok(()) && edgeAttr == marked.value)
        && (marked.Err? ==> r == Err(marked.error))
    {
      ghost var flagged := edgeAttr;
      for i := 0 to |links|
        invariant MarkNone(flagged, links, i, edgeMapping, edgeAttrMapping) == Ok(edgeAttr)
      {
        MarkNoneStep(flagged, links, i, edgeMapping, edgeAttrMapping, edgeAttr);
        var k := RowIndex(edgeMapping, edgeAttr, links[i].id);
        var row := if k.Ok? then MarkNoneRow(edgeAttr[k.value], edgeAttrMapping) else Err(IndexError);
        if k.Err? || row.Err? {
          MarkNoneErrSticks(flagged, links, i + 1, |links|, edgeMapping, edgeAttrMapping);
          return if k.Err? then Err(k.error) else Err(row.error);
        }
        edgeAttr := edgeAttr[k.value := row.value];
      }
      r := Ok(());
    }
  }

  lemma PlaceChargersStep(rows: seq<Row>, chargers: seq<XmlCharger>, i: nat, edgeMapping: map<string, int>,
                          m: map<string, int>, v: Variant, acc: (seq<Row>, real))
    requires i < |chargers| && PlaceChargers(rows, chargers, i, edgeMapping, m, v) == Ok(acc)
    ensures PlaceChargers(rows, chargers, i + 1, edgeMapping, m, v) == PlaceCharger(acc, chargers[i], edgeMapping, m, v)
  {
  }

  /** A charger placed without error flags its row and adds its cost. */
  lemma PlaceChargersNext(rows: seq<Row>, chargers: seq<XmlCharger>, i: nat, edgeMapping: map<string, int>,
                          m: map<string, int>, v: Variant, acc: (seq<Row>, real), add: real, k: nat, next: seq<Row>)
    requires i < |chargers| && PlaceChargers(rows, chargers, i, edgeMapping, m, v) == Ok(acc)
    requires ChargerCost(acc.0, chargers[i], edgeMapping, v) == Ok(add)
    requires RowIndex(edgeMapping, acc.0, chargers[i].link) == Ok(k)
    requires SetFlag(acc.0, k, ChargerType(chargers[i]), m) == Ok(next)
    ensures PlaceChargers(rows, chargers, i + 1, edgeMapping, m, v) == Ok((next, acc.1 + add))
  {
    PlaceChargersStep(rows, chargers, i, edgeMapping, m, v, acc);
  }

  /** A charger that cannot be placed ends the whole pass with its error. */
  lemma PlaceChargersFail(rows: seq<Row>, chargers: seq<XmlCharger>, i: nat, edgeMapping: map<string, int>,
                          m: map<string, int>, v: Variant, acc: (seq<Row>, real), e: Error)
    requires i < |chargers| && PlaceChargers(rows, chargers, i, edgeMapping, m, v) == Ok(acc)
    requires PlaceCharger(acc, chargers[i], edgeMapping, m, v) == Err(e)
    ensures PlaceChargers(rows, chargers, |chargers|, edgeMapping, m, v) == Err(e)
  {
    PlaceChargersStep(rows, chargers, i, edgeMapping, m, v, acc);
    PlaceChargersErrSticks(rows, chargers, i + 1, |chargers|, edgeMapping, m, v);
  }

  lemma MarkNoneStep(rows: seq<Row>, links: seq<XmlLink>, i: nat, edgeMapping: map<string, int>, m: map<string, int>,
                     acc: seq<Row>)
    requires i < |links| && MarkNone(rows, links, i, edgeMapping, m) == Ok(acc)
    ensures MarkNone(rows, links, i + 1, edgeMapping, m) ==
      match RowIndex(edgeMapping, acc, links[i].id)
      case Err(e) => Err(e)
      case Ok(k) =>
        match MarkNoneRow(acc[k], m)
        case Err(e) => Err(e)
        case Ok(row) => Ok(acc[k := row])
  {
  }

  /** The mapping has at least the three base columns. */
  lemma MappingWidth(types: seq<ChargerKind>)
    ensures |AttrMapping(types)| >= 3
  {
    var m := AttrMapping(types);
    assert {Length, FreeSpeed, Capacity} <= m.Keys;
    assert |{Length, FreeSpeed, Capacity}| == 3;
    assert |m.Keys| >= 3 by {
      SubsetSize({Length, FreeSpeed, Capacity}, m.Keys);
    }
  }

  lemma SubsetSize<T>(a: set<T>, b: set<T>)
    requires a <= b
    ensures |a| <= |b|
  {
    assert b == a + (b - a);
  }

  /**
   * What the constructor leaves after parse_matsim_network: the charger
   * pass on the raw rows (its cost is not kept), then max_mins and the
   * normalised base columns.
   */
  function Construct(g: Graph, links: seq<XmlLink>, chargers: seq<XmlCharger>, types: seq<ChargerKind>, v: Variant)
    : (r: Result<(seq<Row>, Bounds)>)
    requires |links| > 0 && Shaped(g.rows, links, types)
    ensures r.Ok? <==> ChargerPass(g.rows, links, chargers, g.edgeMapping, AttrMapping(types), v).Ok?
    ensures r.Err? ==> r.error == ChargerPass(g.rows, links, chargers, g.edgeMapping, AttrMapping(types), v).error
    ensures r.Ok? ==> |r.value.0| == |links| && |r.value.1.mins| == 3 && |r.value.1.maxs| == 3
  {
    match ChargerPass(g.rows, links, chargers, g.edgeMapping, AttrMapping(types), v)
    case Err(e) => Err(e)
    case Ok(pass) =>
      MappingWidth(types);
      var b := MaxMins(pass.0);
      Ok((NormalizeRows(pass.0, b, false), b))
  }

  /** The constructor from the parsed files on. */
  function Loaded(nodes: seq<XmlNode>, links: seq<XmlLink>, chargers: seq<XmlCharger>, types: seq<ChargerKind>, v: Variant)
    : Result<(seq<Row>, Bounds)>
  {
    match ParseNetwork(nodes, links, types, v)
    case Err(e) => Err(e)
    case Ok(g) => Construct(g, links, chargers, types, v)
  }

  /** MatsimXMLDataset.__init__ from the parsed files on. */
  method Load(nodes: seq<XmlNode>, links: seq<XmlLink>, chargers: seq<XmlCharger>, types: seq<ChargerKind>, v: Variant)
    returns (r: Result<Dataset>)
    ensures var spec := Loaded(nodes, links, chargers, types, v);
      && (spec.Err? ==> r == Err(spec.error))
      && (spec.Ok? ==>
            && r.Ok? && fresh(r.value) && r.value.Valid()
            && r.value.edgeAttr == spec.value.0 && r.value.maxMins == spec.value.1)
  {
    var g := ParseMatsimNetwork(nodes, links, types, v);
    if g.Err? {
      return Err(g.error);
    }
    var d := new Dataset(g.value, links, types, v);
    var cost := d.ParseChargerNetworkGetChargerCost(chargers);
    if cost.Err? {
      return Err(cost.error);
    }
    d.NormalizeBaseColumns();
    r := Ok(d);
  }

  /**
   * The first three columns of out are those of rows min-max normalised by
   * b, and lie in [0, 1], except the NaN columns, which hold 0.0 in the model.
   */
  predicate BaseColumnsNormalized(rows: seq<Row>, out: seq<Row>, b: Bounds) {
    && |b.mins| == 3 && |b.maxs| == 3 && |out| == |rows|
    && forall k, j :: 0 <= k < |out| && 0 <= j < 3 ==>
         && 3 <= |out[k]| && 3 <= |rows[k]|
         && (j in NanColumns(b) ==> out[k][j] == 0.0)
         && (j !in NanColumns(b) ==>
               && out[k][j] == Normalize(rows[k][j], b.mins[j], b.maxs[j])
               && 0.0 <= out[k][j] <= 1.0)
  }

  /** Normalising rows whose base columns equal those of rows. */
  lemma BaseNormalized(rows: seq<Row>, pass: seq<Row>)
    requires |pass| == |rows| > 0 && Wide(pass)
    requires Wide(rows) && forall k, j :: 0 <= k < |rows| && 0 <= j < 3 ==> pass[k][j] == rows[k][j]
    ensures BaseColumnsNormalized(rows, NormalizeRows(pass, MaxMins(pass), false), MaxMins(pass))
  {
    var b := MaxMins(pass);
    var out := NormalizeRows(pass, b, false);
    NormalizedInUnit(pass);
    forall k, j | 0 <= k < |out| && 0 <= j < 3 && j !in NanColumns(b)
      ensures out[k][j] == Normalize(rows[k][j], b.mins[j], b.maxs[j])
    {
      assert out[k] == NormalizeRow(pass[k], b, false);
    }
  }

  /** Construct is the charger pass followed by normalisation. */
  lemma ConstructIsPass(g: Graph, links: seq<XmlLink>, chargers: seq<XmlCharger>, types: seq<ChargerKind>, v: Variant)
    requires |links| > 0 && Shaped(g.rows, links, types)
    ensures var r := Construct(g, links, chargers, types, v);
      var p := ChargerPass(g.rows, links, chargers, g.edgeMapping, AttrMapping(types), v);
      r.Ok? ==>
        && p.Ok? && Wide(p.value.0) && r.value.1 == MaxMins(p.value.0)
        && r.value.0 == NormalizeRows(p.value.0, MaxMins(p.value.0), false)
  {
    MappingWidth(types);
  }

  /**
   * After construction every link's length, free speed and capacity is its
   * parsed attribute value min-max normalised into [0, 1] by the recorded
   * max_mins, as long as no charger's type names one of those columns; so
   * a later charger pass reads a normalised length from column 0. A column
   * whose value is the same on every link is NaN instead.
   */
  lemma ConstructBaseColumns(g: Graph, links: seq<XmlLink>, chargers: seq<XmlCharger>, types: seq<ChargerKind>, v: Variant)
    requires |links| > 0 && Shaped(g.rows, links, types) && g.edgeMapping == FlowSimDataset.Indexing(LinkIds(links))
    requires DistinctKinds(types) && AllKinds(types)
    requires forall i :: 0 <= i < |chargers| ==> !IsBaseKey(ChargerType(chargers[i]))
    ensures var r := Construct(g, links, chargers, types, v);
      r.Ok? ==> BaseColumnsNormalized(g.rows, r.value.0, r.value.1)
  {
    var r := Construct(g, links, chargers, types, v);
    if r.Ok? {
      ConstructIsPass(g, links, chargers, types, v);
      MappingWidth(types);
      ChargerPassKeepsBase(g.rows, links, chargers, types, v);
      var pass := ChargerPass(g.rows, links, chargers, g.edgeMapping, AttrMapping(types), v).value.0;
      assert Wide(g.rows);
      forall k, j | 0 <= k < |g.rows| && 0 <= j < 3 ensures pass[k][j] == g.rows[k][j] {
        assert |g.rows[k]| == |AttrMapping(types)|;
      }
      BaseNormalized(g.rows, pass);
    }
  }

}
