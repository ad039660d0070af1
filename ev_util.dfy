/**
 * The helpers of the older charger-placement driver: a chargers.xml with
 * one static charger per given link, the lastIteration update of a MATSim
 * config, and the Monte Carlo baseline that draws links at random. get_str
 * is the same code as in the Q-learning scripts and is ScriptsUtil.GetStr.
 */
module EvUtil {
  import opened Wrappers
  import opened Text
  import CreateChargers

  // ---------------------------------------------------------------------------
  // create_chargers_xml
  // ---------------------------------------------------------------------------

  /** create_chargers_xml without the file: one "100.0" kW, 5-plug charger per link. */
  method CreateChargersXml(linkIds: seq<string>) returns (chargers: seq<CreateChargers.ChargerElement>)
    ensures |chargers| == |linkIds|
    ensures forall i :: 0 <= i < |linkIds| ==>
      chargers[i] == CreateChargers.ChargerElement(NatToString(i + 1), linkIds[i], "100.0", "5", None)
  {
    chargers := [];
    for i := 0 to |linkIds|
      invariant |chargers| == i
      invariant forall j :: 0 <= j < i ==>
        chargers[j] == CreateChargers.ChargerElement(NatToString(j + 1), linkIds[j], "100.0", "5", None)
    {
      chargers := chargers + [CreateChargers.ChargerElement(NatToString(i + 1), linkIds[i], "100.0", "5", None)];
    }
  }

  /** The ids written are 1..n in order: charger i reads back as the number i + 1, so no id repeats. */
  lemma ChargerIds(chargers: seq<CreateChargers.ChargerElement>)
    requires forall i :: 0 <= i < |chargers| ==> chargers[i].id == NatToString(i + 1)
    ensures forall i :: 0 <= i < |chargers| ==> ParseNat(chargers[i].id) == Some(i + 1)
    ensures forall i, j :: 0 <= i < j < |chargers| ==> chargers[i].id != chargers[j].id
  {
    forall i | 0 <= i < |chargers| ensures ParseNat(chargers[i].id) == Some(i + 1) {
      NatRoundTrip(i + 1);
    }
  }

  // ---------------------------------------------------------------------------
  // update_last_iteration
  // ---------------------------------------------------------------------------

  /** A <param> element: its name and value attributes, either of which may be absent. */
  datatype Param = Param(name: Option<string>, value: Option<string>)

  /** A <module> element with its direct <param> children. */
  datatype ConfigModule = ConfigModule(name: Option<string>, params: seq<Param>)

  predicate IsLastIteration(p: Param) {
    p.name == Some("lastIteration")
  }

  /** Index of the first lastIteration param, or |params| when there is none. */
  function FirstLastIteration(params: seq<Param>): (k: nat)
    ensures k <= |params|
    ensures forall j :: 0 <= j < k ==> !IsLastIteration(params[j])
    ensures k < |params| ==> IsLastIteration(params[k])
  {
    if params == [] then 0
    else if IsLastIteration(params[0]) then 0
    else 1 + FirstLastIteration(params[1..])
  }

  /** The module after the update: only a controler module's first lastIteration changes. */
  function UpdatedModule(m: ConfigModule, newValue: int): ConfigModule {
    if m.name != Some("controler") then m
    else
      var k := FirstLastIteration(m.params);
      if k == |m.params| then m
      else ConfigModule(m.name, m.params[k := Param(m.params[k].name, Some(IntToString(newValue)))])
  }

  /** The inner loop: set the first lastIteration param and break. */
  method SetLastIteration(params: seq<Param>, newValue: int) returns (out: seq<Param>)
    ensures out == UpdatedModule(ConfigModule(Some("controler"), params), newValue).params
  {
    out := params;
    var k := 0;
    while k < |params|
      invariant k <= |params| && out == params
      invariant forall j :: 0 <= j < k ==> !IsLastIteration(params[j])
    {
      if IsLastIteration(params[k]) {
        out := params[k := Param(params[k].name, Some(IntToString(newValue)))];
        assert FirstLastIteration(params) == k by {
          FirstIsFirst(params, k);
        }
        return;
      }
      k := k + 1;
    }
    FirstIsFirst(params, k);
  }

  /** The first lastIteration is at k when none comes before k and k has one or ends the list. */
  lemma {:induction false} FirstIsFirst(params: seq<Param>, k: nat)
    requires k <= |params| && forall j :: 0 <= j < k ==> !IsLastIteration(params[j])
    requires k < |params| ==> IsLastIteration(params[k])
    ensures FirstLastIteration(params) == k
  {
    if k > 0 {
      FirstIsFirst(params[1..], k - 1);
    }
  }

  /** update_last_iteration without the file: the loop over every module of the config. */
  method UpdateLastIteration(modules: seq<ConfigModule>, newValue: int) returns (out: seq<ConfigModule>)
    ensures |out| == |modules| && forall i :: 0 <= i < |modules| ==> out[i] == UpdatedModule(modules[i], newValue)
  {
    out := [];
    for i := 0 to |modules|
      invariant |out| == i && forall j :: 0 <= j < i ==> out[j] == UpdatedModule(modules[j], newValue)
    {
      var m := modules[i];
      if m.name == Some("controler") {
        var params := SetLastIteration(m.params, newValue);
        m := ConfigModule(m.name, params);
      }
      out := out + [m];
    }
  }

  /**
   * Only the first lastIteration param of each module named "controler" is
   * changed, to str(new_value); every other module and every other param,
   * including later lastIteration params, stays as it was.
   */
  lemma UpdatedModuleSpec(m: ConfigModule, newValue: int)
    ensures var u := UpdatedModule(m, newValue);
      && u.name == m.name && |u.params| == |m.params|
      && forall j :: 0 <= j < |m.params| ==>
           if m.name == Some("controler") && IsLastIteration(m.params[j])
              && forall l :: 0 <= l < j ==> !IsLastIteration(m.params[l])
           then u.params[j] == Param(m.params[j].name, Some(IntToString(newValue)))
           else u.params[j] == m.params[j]
  {
    var u := UpdatedModule(m, newValue);
    if m.name == Some("controler") {
      var k := FirstLastIteration(m.params);
      forall j | 0 <= j < |m.params|
        ensures if IsLastIteration(m.params[j]) && forall l :: 0 <= l < j ==> !IsLastIteration(m.params[l])
          then u.params[j] == Param(m.params[j].name, Some(IntToString(newValue)))
          else u.params[j] == m.params[j]
      {
        if j < k {
        } else if j == k {
        } else {
          assert !(forall l :: 0 <= l < j ==> !IsLastIteration(m.params[l])) by {
            assert IsLastIteration(m.params[k]);
          }
        }
      }
    }
  }

  // ---------------------------------------------------------------------------
  // monte_carlo_algorithm
  // ---------------------------------------------------------------------------

  /**
   * np.random.choice(link_ids, num_chargers): links drawn with replacement;
   * the results of earlier runs are taken and not used.
   */
  function MonteCarlo<R>(numChargers: int, linkIds: seq<string>, algorithmResults: R, draw: nat -> nat)
    : (r: Result<seq<string>>)
    ensures r.Ok? <==> 0 <= numChargers && (|linkIds| > 0 || numChargers == 0)
    ensures r.Ok? ==> |r.value| == numChargers && forall i :: 0 <= i < numChargers ==> r.value[i] in linkIds
  {
    CreateChargers.Resample(linkIds, numChargers, draw)
  }

  /** The draw does not depend on the earlier results. */
  lemma MonteCarloIgnoresResults<R>(numChargers: int, linkIds: seq<string>, a: R, b: R, draw: nat -> nat)
    ensures MonteCarlo(numChargers, linkIds, a, draw) == MonteCarlo(numChargers, linkIds, b, draw)
  {
  }
}
