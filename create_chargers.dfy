/**
 * The chargers.xml generators of the wireless charging scripts: one charger
 * element per non-zero entry of a placement action, and a random mix of
 * dynamic and static chargers over a list of links. numpy's random draws
 * are an input: `draw(t)` is the t-th random number a call consumes.
 */
module CreateChargers {
  import opened Wrappers
  import opened Text
  import opened Chargers
  import FlowSimDataset

  /** One <charger> element of chargers.xml; a missing type attribute is None. */
  datatype ChargerElement = ChargerElement(id: string, link: string, plugPower: string, plugCount: string, chargerType: Option<string>)

  // ---------------------------------------------------------------------------
  // create_chargers_xml_gymnasium
  // ---------------------------------------------------------------------------

  /** The element written for a charger of kind k on the edge with index idx. */
  function ActionElement(idx: nat, k: ChargerKind, link: string): ChargerElement {
    ChargerElement(NatToString(idx), link, NatToString(PlugPower(k, Wireless)),
      NatToString(PlugCount(k, Wireless)), Some(TypeName(k)))
  }

  /**
   * The elements for the first n action entries, or the first error: the
   * charger list is indexed by the action before the inverse link mapping
   * is looked up by the edge index.
   */
  function ActionElements(kinds: seq<ChargerKind>, actions: seq<nat>, inv: map<nat, string>, n: nat)
    : Result<seq<ChargerElement>>
    requires n <= |actions|
  {
    if n == 0 then Ok([])
    else match ActionElements(kinds, actions, inv, n - 1)
      case Err(e) => Err(e)
      case Ok(prev) =>
        var a := actions[n - 1];
        if a == 0 then Ok(prev)
        else if a >= |kinds| then Err(IndexError)
        else if n - 1 !in inv then Err(KeyError(NatToString(n - 1)))
        else Ok(prev + [ActionElement(n - 1, kinds[a], inv[n - 1])])
  }

  lemma {:induction false} ActionErrSticks(kinds: seq<ChargerKind>, actions: seq<nat>, inv: map<nat, string>, m: nat, n: nat)
    requires m <= n <= |actions| && ActionElements(kinds, actions, inv, m).Err?
    ensures ActionElements(kinds, actions, inv, n) == ActionElements(kinds, actions, inv, m)
    decreases n
  {
    if n > m {
      ActionErrSticks(kinds, actions, inv, m, n - 1);
    }
  }

  /**
   * create_chargers_xml_gymnasium without the file: actions[idx] == 0 places
   * nothing, any other value places charger_list[actions[idx]] on the link
   * whose index is idx, with id str(idx).
   */
  method CreateChargersXmlGymnasium(kinds: seq<ChargerKind>, actions: seq<nat>, inv: map<nat, string>)
    returns (r: Result<seq<ChargerElement>>)
    ensures r == ActionElements(kinds, actions, inv, |actions|)
  {
    var chargers: seq<ChargerElement> := [];
    for idx := 0 to |actions|
      invariant ActionElements(kinds, actions, inv, idx) == Ok(chargers)
    {
      var a := actions[idx];
      if a != 0 {
        if a >= |kinds| {
          ActionErrSticks(kinds, actions, inv, idx + 1, |actions|);
          return Err(IndexError);
        }
        if idx !in inv {
          ActionErrSticks(kinds, actions, inv, idx + 1, |actions|);
          return Err(KeyError(NatToString(idx)));
        }
        chargers := chargers + [ActionElement(idx, kinds[a], inv[idx])];
      }
    }
    return Ok(chargers);
  }

  /** The edge indices below n that get a charger, ascending. */
  function Placed(actions: seq<nat>, n: nat): (r: seq<nat>)
    requires n <= |actions|
    ensures forall j :: 0 <= j < |r| ==> r[j] < n && actions[r[j]] != 0
    ensures forall i, j :: 0 <= i < j < |r| ==> r[i] < r[j]
    ensures forall idx :: 0 <= idx < n && actions[idx] != 0 ==> idx in r
  {
    if n == 0 then []
    else if actions[n - 1] == 0 then Placed(actions, n - 1)
    else Placed(actions, n - 1) + [n - 1]
  }

  /** Every placing action names a charger kind and an edge of the mapping. */
  predicate ActionsValid(kinds: seq<ChargerKind>, actions: seq<nat>, inv: map<nat, string>, n: nat)
    requires n <= |actions|
  {
    forall idx :: 0 <= idx < n && actions[idx] != 0 ==> actions[idx] < |kinds| && idx in inv
  }

  /**
   * The gymnasium writer succeeds exactly when every non-zero action names a
   * charger kind and an indexed edge.
   */
  lemma {:induction false} ActionElementsOk(kinds: seq<ChargerKind>, actions: seq<nat>, inv: map<nat, string>, n: nat)
    requires n <= |actions|
    ensures ActionElements(kinds, actions, inv, n).Ok? <==> ActionsValid(kinds, actions, inv, n)
  {
    if n > 0 {
      ActionElementsOk(kinds, actions, inv, n - 1);
      var a := actions[n - 1];
      if ActionElements(kinds, actions, inv, n - 1).Err? {
        assert !ActionsValid(kinds, actions, inv, n);
      } else if a != 0 && (a >= |kinds| || n - 1 !in inv) {
        assert !ActionsValid(kinds, actions, inv, n);
      }
    }
  }

  /**
   * When it succeeds it writes one element per non-zero action, in
   * ascending edge order.
   */
  lemma {:induction false} ActionElementsPlaced(kinds: seq<ChargerKind>, actions: seq<nat>, inv: map<nat, string>, n: nat)
    requires n <= |actions| && ActionsValid(kinds, actions, inv, n)
    ensures var r := ActionElements(kinds, actions, inv, n); var p := Placed(actions, n);
      && r.Ok?
      && |r.value| == |p|
      && forall j :: 0 <= j < |p| ==> r.value[j] == ActionElement(p[j], kinds[actions[p[j]]], inv[p[j]])
  {
    if n > 0 {
      assert ActionsValid(kinds, actions, inv, n - 1);
      ActionElementsPlaced(kinds, actions, inv, n - 1);
      var prev := ActionElements(kinds, actions, inv, n - 1).value;
      var a := actions[n - 1];
      if a != 0 {
        var p := Placed(actions, n - 1);
        var e := ActionElement(n - 1, kinds[a], inv[n - 1]);
        var q := p + [n - 1];
        assert ActionElements(kinds, actions, inv, n) == Ok(prev + [e]);
        assert Placed(actions, n) == q;
        forall j | 0 <= j < |q| ensures (prev + [e])[j] == ActionElement(q[j], kinds[actions[q[j]]], inv[q[j]]) {
          if j < |p| {
            assert (prev + [e])[j] == prev[j] && q[j] == p[j];
          }
        }
      } else {
        assert Placed(actions, n) == Placed(actions, n - 1);
      }
    }
  }

  /** The ids written by the gymnasium writer are pairwise different. */
  lemma ActionIdsDistinct(kinds: seq<ChargerKind>, actions: seq<nat>, inv: map<nat, string>)
    ensures var r := ActionElements(kinds, actions, inv, |actions|);
      r.Ok? ==> forall i, j :: 0 <= i < j < |r.value| ==> r.value[i].id != r.value[j].id
  {
    var r := ActionElements(kinds, actions, inv, |actions|);
    if r.Ok? {
      ActionElementsOk(kinds, actions, inv, |actions|);
      ActionElementsPlaced(kinds, actions, inv, |actions|);
      var p := Placed(actions, |actions|);
      forall i, j | 0 <= i < j < |r.value| ensures r.value[i].id != r.value[j].id {
        if r.value[i].id == r.value[j].id {
          NatToStringInjective(p[i], p[j]);
        }
      }
    }
  }

  // ---------------------------------------------------------------------------
  // numpy helpers
  // ---------------------------------------------------------------------------

  function Without<T(==)>(s: seq<T>, j: nat): (r: seq<T>)
    requires j < |s|
    ensures |r| == |s| - 1
    ensures forall i :: 0 <= i < |r| ==> r[i] == s[if i < j then i else i + 1]
  {
    assert s == s[..j] + [s[j]] + s[j + 1..];
    s[..j] + s[j + 1..]
  }

  /** Dropping a position of distinct values drops its value and keeps the rest distinct. */
  lemma WithoutDistinct<T>(s: seq<T>, j: nat)
    requires j < |s| && FlowSimDataset.Distinct(s)
    ensures FlowSimDataset.Distinct(Without(s, j)) && s[j] !in Without(s, j)
  {
    var r := Without(s, j);
    forall a, b | 0 <= a < b < |r| ensures r[a] != r[b] {
      assert r[a] == s[if a < j then a else a + 1];
      assert r[b] == s[if b < j then b else b + 1];
    }
    forall a | 0 <= a < |r| ensures r[a] != s[j] {
      assert r[a] == s[if a < j then a else a + 1];
    }
  }

  /** Dropping a position drops one occurrence of its value. */
  lemma WithoutMultiset<T>(s: seq<T>, j: nat)
    requires j < |s|
    ensures multiset(s) == multiset(Without(s, j)) + multiset{s[j]}
  {
    assert s == s[..j] + [s[j]] + s[j + 1..];
    assert Without(s, j) == s[..j] + s[j + 1..];
  }

  /**
   * random.choice(pop, k, replace=False): the t-th draw picks a position of
   * what is still left, so no position of pop is taken twice.
   */
  function SampleFrom<T(==)>(pop: seq<T>, k: nat, draw: nat -> nat, t: nat): (r: seq<T>)
    requires k <= |pop|
    ensures |r| == k && forall i :: 0 <= i < k ==> r[i] in pop
    decreases k
  {
    if k == 0 then []
    else
      var j := draw(t) % |pop|;
      var rest := Without(pop, j);
      assert forall x :: x in rest ==> x in pop;
      [pop[j]] + SampleFrom(rest, k - 1, draw, t + 1)
  }

  /** No position of the population is drawn twice. */
  lemma {:induction false} SampleFromMultiset<T>(pop: seq<T>, k: nat, draw: nat -> nat, t: nat)
    requires k <= |pop|
    ensures multiset(SampleFrom(pop, k, draw, t)) <= multiset(pop)
    decreases k
  {
    if k > 0 {
      var j := draw(t) % |pop|;
      var rest := Without(pop, j);
      SampleFromMultiset(rest, k - 1, draw, t + 1);
      var tail := SampleFrom(rest, k - 1, draw, t + 1);
      assert SampleFrom(pop, k, draw, t) == [pop[j]] + tail;
      WithoutMultiset(pop, j);
      assert multiset([pop[j]] + tail) == multiset{pop[j]} + multiset(tail);
    }
  }

  function Sample<T(==)>(pop: seq<T>, k: int, draw: nat -> nat): (r: Result<seq<T>>)
    ensures r.Ok? <==> 0 <= k <= |pop|
    ensures r.Ok? ==> |r.value| == k && forall i :: 0 <= i < k ==> r.value[i] in pop
  {
    if k < 0 then Err(ValueError("negative dimensions are not allowed"))
    else if k > |pop| then Err(ValueError("Cannot take a larger sample than population when 'replace=False'"))
    else Ok(SampleFrom(pop, k, draw, 0))
  }

  /** Sampling a population of distinct values gives distinct values. */
  lemma {:induction false} SampleFromDistinct<T>(pop: seq<T>, k: nat, draw: nat -> nat, t: nat)
    requires k <= |pop| && FlowSimDataset.Distinct(pop)
    ensures FlowSimDataset.Distinct(SampleFrom(pop, k, draw, t))
    decreases k
  {
    if k > 0 {
      var j := draw(t) % |pop|;
      var rest := Without(pop, j);
      WithoutDistinct(pop, j);
      SampleFromDistinct(rest, k - 1, draw, t + 1);
      var tail := SampleFrom(rest, k - 1, draw, t + 1);
      assert pop[j] !in tail;
      ConsDistinct(pop[j], tail);
    }
  }

  lemma ConsDistinct<T>(x: T, tail: seq<T>)
    requires FlowSimDataset.Distinct(tail) && x !in tail
    ensures FlowSimDataset.Distinct([x] + tail)
  {
    var r := [x] + tail;
    forall a, b | 0 <= a < b < |r| ensures r[a] != r[b] {
      assert r[b] == tail[b - 1];
      if a > 0 {
        assert r[a] == tail[a - 1];
      }
    }
  }

  /**
   * setdiff1d(xs, ys): every value of xs that is not in ys, once each.
   * numpy returns them sorted; here they keep their first-occurrence order.
   */
  function SetDiff<T(==,!new)>(xs: seq<T>, ys: seq<T>): (r: seq<T>)
    ensures FlowSimDataset.Distinct(r)
    ensures forall x :: x in r <==> x in xs && x !in ys
  {
    if xs == [] then []
    else
      var r := SetDiff(xs[..|xs| - 1], ys);
      var x := xs[|xs| - 1];
      assert xs == xs[..|xs| - 1] + [x];
      if x in ys || x in r then r else r + [x]
  }

  /** random.choice(pop, k) with replacement, as main draws its links. */
  function Resample<T(==)>(pop: seq<T>, k: int, draw: nat -> nat): (r: Result<seq<T>>)
    ensures r.Ok? <==> 0 <= k && (|pop| > 0 || k == 0)
    ensures r.Ok? ==> |r.value| == k && forall i :: 0 <= i < k ==> r.value[i] in pop
  {
    if k < 0 then Err(ValueError("negative dimensions are not allowed"))
    else if |pop| == 0 then
      (if k > 0 then Err(ValueError("a cannot be empty unless no samples are taken")) else Ok([]))
    else Ok(seq(k, i requires 0 <= i < k => pop[draw(i) % |pop|]))
  }

  // ---------------------------------------------------------------------------
  // create_chargers_xml
  // ---------------------------------------------------------------------------

  /** int(num_chargers * percent_dynamic). */
  function NumDynamic(n: nat, p: real): int {
    Trunc(n as real * p)
  }

  /**
   * The dynamic and the static links: the dynamic ones drawn without
   * replacement from all links, the static ones from the distinct links
   * left over. A missing percent_dynamic multiplies by None.
   */
  function Split(linkIds: seq<string>, percentDynamic: Option<real>, dynDraw: nat -> nat, staticDraw: nat -> nat)
    : Result<(seq<string>, seq<string>)>
  {
    if percentDynamic.None? then Err(TypeError)
    else
      var numDynamic := NumDynamic(|linkIds|, percentDynamic.value);
      match Sample(linkIds, numDynamic, dynDraw)
      case Err(e) => Err(e)
      case Ok(dyn) =>
        match Sample(SetDiff(linkIds, dyn), |linkIds| - numDynamic, staticDraw)
        case Err(e) => Err(e)
        case Ok(stat) => Ok((dyn, stat))
  }

  function DynamicElement(id: nat, link: string): ChargerElement {
    ChargerElement(NatToString(id), link, "70", "9999", Some("dynamic"))
  }

  function StaticElement(id: nat, link: string): ChargerElement {
    ChargerElement(NatToString(id), link, "100.0", "1", None)
  }

  /** Dynamic chargers first, then static ones, numbered from 0. */
  function Elements(dyn: seq<string>, stat: seq<string>): seq<ChargerElement> {
    seq(|dyn| + |stat|, i requires 0 <= i < |dyn| + |stat| =>
      if i < |dyn| then DynamicElement(i, dyn[i]) else StaticElement(i, stat[i - |dyn|]))
  }

  function Created(linkIds: seq<string>, percentDynamic: Option<real>, dynDraw: nat -> nat, staticDraw: nat -> nat)
    : Result<seq<ChargerElement>>
  {
    match Split(linkIds, percentDynamic, dynDraw, staticDraw)
    case Err(e) => Err(e)
    case Ok(s) => Ok(Elements(s.0, s.1))
  }

  /** The two loops of create_chargers_xml, with the running id. */
  method WriteElements(dyn: seq<string>, stat: seq<string>) returns (chargers: seq<ChargerElement>)
    ensures chargers == Elements(dyn, stat)
  {
    chargers := [];
    var id := 0;
    for i := 0 to |dyn|
      invariant id == i == |chargers|
      invariant forall j :: 0 <= j < i ==> chargers[j] == DynamicElement(j, dyn[j])
    {
      chargers := chargers + [DynamicElement(id, dyn[i])];
      id := id + 1;
    }
    for i := 0 to |stat|
      invariant id == |dyn| + i == |chargers|
      invariant forall j :: 0 <= j < |dyn| ==> chargers[j] == DynamicElement(j, dyn[j])
      invariant forall j :: |dyn| <= j < id ==> chargers[j] == StaticElement(j, stat[j - |dyn|])
    {
      chargers := chargers + [StaticElement(id, stat[i])];
      id := id + 1;
    }
  }

  /** create_chargers_xml without the file. */
  method CreateChargersXml(linkIds: seq<string>, percentDynamic: Option<real>, dynDraw: nat -> nat, staticDraw: nat -> nat)
    returns (r: Result<seq<ChargerElement>>)
    ensures r == Created(linkIds, percentDynamic, dynDraw, staticDraw)
  {
    if percentDynamic.None? {
      return Err(TypeError);
    }
    var numChargers := |linkIds|;
    var numDynamic := NumDynamic(numChargers, percentDynamic.value);
    var numStatic := numChargers - numDynamic;
    var dynamicChargers := Sample(linkIds, numDynamic, dynDraw);
    if dynamicChargers.Err? {
      return Err(dynamicChargers.error);
    }
    var rest := SetDiff(linkIds, dynamicChargers.value);
    var staticChargers := Sample(rest, numStatic, staticDraw);
    if staticChargers.Err? {
      return Err(staticChargers.error);
    }
    assert Split(linkIds, percentDynamic, dynDraw, staticDraw) == Ok((dynamicChargers.value, staticChargers.value));
    var chargers := WriteElements(dynamicChargers.value, staticChargers.value);
    return Ok(chargers);
  }

  /** The split's facts: sizes, membership, disjointness and distinct static links. */
  lemma SplitFacts(linkIds: seq<string>, percentDynamic: Option<real>, dynDraw: nat -> nat, staticDraw: nat -> nat)
    ensures var s := Split(linkIds, percentDynamic, dynDraw, staticDraw);
      s.Ok? ==>
        && percentDynamic.Some?
        && |s.value.0| == NumDynamic(|linkIds|, percentDynamic.value) >= 0
        && |s.value.0| + |s.value.1| == |linkIds|
        && (forall i :: 0 <= i < |s.value.0| ==> s.value.0[i] in linkIds)
        && (forall j :: 0 <= j < |s.value.1| ==> s.value.1[j] in linkIds && s.value.1[j] !in s.value.0)
        && FlowSimDataset.Distinct(s.value.1)
  {
    var s := Split(linkIds, percentDynamic, dynDraw, staticDraw);
    if s.Ok? {
      var k := NumDynamic(|linkIds|, percentDynamic.value);
      var d := Sample(linkIds, k, dynDraw);
      assert d.Ok?;
      var rest := SetDiff(linkIds, d.value);
      var st := Sample(rest, |linkIds| - k, staticDraw);
      assert st.Ok? && s.value == (d.value, st.value);
      var m: nat := |linkIds| - k;
      assert st.value == SampleFrom(rest, m, staticDraw, 0);
      SampleFromDistinct(rest, m, staticDraw, 0);
    }
  }

  /** The link attribute of every element, in order. */
  function Links(r: seq<ChargerElement>): (links: seq<string>)
    ensures |links| == |r| && forall i :: 0 <= i < |r| ==> links[i] == r[i].link
  {
    seq(|r|, i requires 0 <= i < |r| => r[i].link)
  }

  /** Element i of Elements(dyn, stat): its id and its charger fields. */
  lemma ElementsRecords(dyn: seq<string>, stat: seq<string>)
    ensures var r := Elements(dyn, stat);
      && |r| == |dyn| + |stat|
      && (forall i :: 0 <= i < |r| ==> r[i].id == NatToString(i))
      && (forall i :: 0 <= i < |dyn| ==> r[i].chargerType == Some("dynamic") && r[i].plugPower == "70" && r[i].plugCount == "9999")
      && (forall i :: |dyn| <= i < |r| ==> r[i].chargerType.None? && r[i].plugPower == "100.0" && r[i].plugCount == "1")
  {
    var r := Elements(dyn, stat);
    forall i | 0 <= i < |r|
      ensures r[i] == if i < |dyn| then DynamicElement(i, dyn[i]) else StaticElement(i, stat[i - |dyn|])
    {
    }
  }

  /** The links of Elements(dyn, stat) are the dynamic links followed by the static ones. */
  lemma ElementsLinks(dyn: seq<string>, stat: seq<string>)
    ensures Links(Elements(dyn, stat)) == dyn + stat
  {
    var r := Elements(dyn, stat);
    forall i | 0 <= i < |r| ensures Links(r)[i] == (dyn + stat)[i] {
      assert r[i] == if i < |dyn| then DynamicElement(i, dyn[i]) else StaticElement(i, stat[i - |dyn|]);
    }
  }

  /** Appending distinct values none of which occurs in a. */
  lemma AppendDisjoint<T>(a: seq<T>, b: seq<T>)
    requires FlowSimDataset.Distinct(b) && forall j :: 0 <= j < |b| ==> b[j] !in a
    ensures var c := a + b;
      && (forall i, j :: 0 <= i < |a| <= j < |c| ==> c[i] != c[j])
      && (forall i, j :: |a| <= i < j < |c| ==> c[i] != c[j])
  {
    var c := a + b;
    forall i, j | 0 <= i < |a| <= j < |c| ensures c[i] != c[j] {
      assert c[j] == b[j - |a|] && c[i] == a[i];
    }
    forall i, j | |a| <= i < j < |c| ensures c[i] != c[j] {
      assert c[i] == b[i - |a|] && c[j] == b[j - |a|];
    }
  }

  /**
   * What create_chargers_xml writes: one charger per input link; the first
   * int(n * percent_dynamic) are dynamic ("70" kW, "9999" plugs, type
   * "dynamic"), the rest static ("100.0", "1", no type), and element i has
   * id str(i).
   */
  lemma CreatedRecords(linkIds: seq<string>, percentDynamic: Option<real>, dynDraw: nat -> nat, staticDraw: nat -> nat)
    ensures var r := Created(linkIds, percentDynamic, dynDraw, staticDraw);
      r.Ok? ==>
        && percentDynamic.Some?
        && var k := NumDynamic(|linkIds|, percentDynamic.value);
        && 0 <= k <= |r.value| == |linkIds|
        && (forall i :: 0 <= i < |r.value| ==> r.value[i].id == NatToString(i))
        && (forall i :: 0 <= i < k ==> r.value[i].chargerType == Some("dynamic") && r.value[i].plugPower == "70" && r.value[i].plugCount == "9999")
        && (forall i :: k <= i < |r.value| ==> r.value[i].chargerType.None? && r.value[i].plugPower == "100.0" && r.value[i].plugCount == "1")
  {
    var r := Created(linkIds, percentDynamic, dynDraw, staticDraw);
    if r.Ok? {
      SplitFacts(linkIds, percentDynamic, dynDraw, staticDraw);
      var s := Split(linkIds, percentDynamic, dynDraw, staticDraw).value;
      ElementsRecords(s.0, s.1);
    }
  }

  /**
   * Every charger of create_chargers_xml sits on an input link; no link
   * carries both a dynamic and a static charger, and no static link is used
   * twice.
   */
  lemma CreatedLinks(linkIds: seq<string>, percentDynamic: Option<real>, dynDraw: nat -> nat, staticDraw: nat -> nat)
    ensures var r := Created(linkIds, percentDynamic, dynDraw, staticDraw);
      r.Ok? ==>
        && percentDynamic.Some?
        && var k := NumDynamic(|linkIds|, percentDynamic.value);
        && var links := Links(r.value);
        && 0 <= k <= |links|
        && (forall i :: 0 <= i < |links| ==> links[i] in linkIds)
        && (forall i, j :: 0 <= i < k <= j < |links| ==> links[i] != links[j])
        && (forall i, j :: k <= i < j < |links| ==> links[i] != links[j])
  {
    var r := Created(linkIds, percentDynamic, dynDraw, staticDraw);
    if r.Ok? {
      SplitFacts(linkIds, percentDynamic, dynDraw, staticDraw);
      var s := Split(linkIds, percentDynamic, dynDraw, staticDraw).value;
      ElementsLinks(s.0, s.1);
      AppendDisjoint(s.0, s.1);
    }
  }

  /** With distinct links and a fraction in [0, 1], create_chargers_xml succeeds. */
  lemma DistinctLinksSucceed(linkIds: seq<string>, p: real, dynDraw: nat -> nat, staticDraw: nat -> nat)
    requires FlowSimDataset.Distinct(linkIds) && 0.0 <= p <= 1.0
    ensures Created(linkIds, Some(p), dynDraw, staticDraw).Ok?
  {
    var n := |linkIds|;
    var k := NumDynamic(n, p);
    assert 0 <= k <= n by {
      assert n as real * p <= n as real * 1.0;
    }
    var dyn := SampleFrom(linkIds, k, dynDraw, 0);
    SampleFromDistinct(linkIds, k, dynDraw, 0);
    var rest := SetDiff(linkIds, dyn);
    assert |rest| == n - k by {
      DistinctCard(linkIds);
      DistinctCard(dyn);
      DistinctCard(rest);
      assert (set x | x in rest) == (set x | x in linkIds) - (set x | x in dyn);
      assert (set x | x in dyn) <= (set x | x in linkIds);
      SubsetDifferenceCard(set x | x in linkIds, set x | x in dyn);
    }
    assert Sample(linkIds, k, dynDraw) == Ok(dyn);
    assert Sample(rest, n - k, staticDraw).Ok?;
    assert Split(linkIds, Some(p), dynDraw, staticDraw).Ok?;
  }

  /** A sequence of distinct values has as many elements as values. */
  lemma {:induction false} DistinctCard<T>(s: seq<T>)
    requires FlowSimDataset.Distinct(s)
    ensures |set x | x in s| == |s|
  {
    if s != [] {
      var init := s[..|s| - 1];
      assert FlowSimDataset.Distinct(init);
      DistinctCard(init);
      assert s == init + [s[|s| - 1]];
      assert (set x | x in s) == (set x | x in init) + {s[|s| - 1]};
    }
  }

  lemma SubsetDifferenceCard<T>(a: set<T>, b: set<T>)
    requires b <= a
    ensures |a - b| == |a| - |b|
  {
    assert a == (a - b) + b;
    assert (a - b) * b == {};
  }

  /** The same call fails when a link occurs twice and no dynamic draw absorbs it. */
  lemma DuplicateLinkFails(dynDraw: nat -> nat, staticDraw: nat -> nat)
    ensures Created(["1", "1"], Some(0.0), dynDraw, staticDraw).Err?
  {
    assert NumDynamic(2, 0.0) == 0;
    SetDiffTwice("1");
  }

  /** A value listed twice is left over once. */
  lemma SetDiffTwice<T(!new)>(x: T)
    ensures SetDiff([x, x], []) == [x]
  {
    assert [x][..0] == [];
    assert SetDiff([x], []) == [] + [x] == [x];
    assert [x, x][..1] == [x];
  }

  // ---------------------------------------------------------------------------
  // main
  // ---------------------------------------------------------------------------

  /** --num_chargers when given, else int(num_links * (percent / 100)). */
  function ChargerCount(numLinks: nat, numChargers: Option<int>, percent: Option<real>): (r: Result<int>)
    ensures r.Err? <==> numChargers.None? && percent.None?
    ensures numChargers.Some? ==> r == Ok(numChargers.value)
    ensures numChargers.None? && percent.Some? && percent.value >= 0.0 ==>
      r.Ok? && 0 <= r.value && r.value as real <= numLinks as real * (percent.value / 100.0) < r.value as real + 1.0
  {
    if numChargers.Some? then Ok(numChargers.value)
    else if percent.Some? then Ok(Trunc(numLinks as real * (percent.value / 100.0)))
    else Err(ValueError("Either num_chargers or percent must be specified"))
  }

  /** main without the files: count, draw links with replacement, place chargers. */
  function Generated(linkIds: seq<string>, numChargers: Option<int>, percent: Option<real>, percentDynamic: Option<real>,
                     pickDraw: nat -> nat, dynDraw: nat -> nat, staticDraw: nat -> nat)
    : Result<seq<ChargerElement>>
  {
    match ChargerCount(|linkIds|, numChargers, percent)
    case Err(e) => Err(e)
    case Ok(count) =>
      match Resample(linkIds, count, pickDraw)
      case Err(e) => Err(e)
      case Ok(picked) => Created(picked, percentDynamic, dynDraw, staticDraw)
  }

  /** main writes as many chargers as its count rule asks for, all on network links. */
  lemma GeneratedCount(linkIds: seq<string>, numChargers: Option<int>, percent: Option<real>, percentDynamic: Option<real>,
                       pickDraw: nat -> nat, dynDraw: nat -> nat, staticDraw: nat -> nat)
    ensures var r := Generated(linkIds, numChargers, percent, percentDynamic, pickDraw, dynDraw, staticDraw);
      r.Ok? ==>
        && ChargerCount(|linkIds|, numChargers, percent).Ok?
        && |r.value| == ChargerCount(|linkIds|, numChargers, percent).value
        && forall i :: 0 <= i < |r.value| ==> Links(r.value)[i] in linkIds
  {
    var r := Generated(linkIds, numChargers, percent, percentDynamic, pickDraw, dynDraw, staticDraw);
    if r.Ok? {
      var count := ChargerCount(|linkIds|, numChargers, percent).value;
      var picked := Resample(linkIds, count, pickDraw).value;
      CreatedRecords(picked, percentDynamic, dynDraw, staticDraw);
      CreatedLinks(picked, percentDynamic, dynDraw, staticDraw);
    }
  }
}
