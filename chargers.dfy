/**
 * The three charger kinds of the placement pipeline and their constants.
 * Two copies of the constants exist: the wireless one, which also carries
 * a price, and the older ev one, whose static charger is slower, has more
 * plugs and which carries no price at all.
 */
module Chargers {
  import opened Wrappers

  datatype ChargerKind = NoneCharger | DynamicCharger | StaticCharger

  /** Which copy of the charger classes is in use. */
  datatype Variant = Wireless | Ev

  /** The `type` class attribute, as written into chargers.xml. */
  function TypeName(k: ChargerKind): (s: string)
    ensures |s| > 0
  {
    match k
    case NoneCharger => "none"
    case DynamicCharger => "dynamic"
    case StaticCharger => "default"
  }

  /** The kind a `type` attribute names, or None for any other text. */
  function KindOfType(s: string): (r: Option<ChargerKind>)
    ensures r.Some? ==> TypeName(r.value) == s
  {
    if s == "none" then Some(NoneCharger)
    else if s == "dynamic" then Some(DynamicCharger)
    else if s == "default" then Some(StaticCharger)
    else None
  }

  lemma KindOfTypeName(k: ChargerKind)
    ensures KindOfType(TypeName(k)) == Some(k)
  {
  }

  function PlugPower(k: ChargerKind, v: Variant): (p: nat)
    ensures k == NoneCharger <==> p == 0
  {
    match k
    case NoneCharger => 0
    case DynamicCharger => 70
    case StaticCharger => if v == Wireless then 150 else 100
  }

  function PlugCount(k: ChargerKind, v: Variant): (c: nat)
    ensures k == NoneCharger <==> c == 0
  {
    match k
    case NoneCharger => 0
    case DynamicCharger => 9999
    case StaticCharger => if v == Wireless then 1 else 5
  }

  /**
   * The `price` class attribute: USD per km for the dynamic charger and per
   * charger for the static one. The none charger only annotates `price`
   * without a value and the ev copy declares no price, so reading it fails.
   */
  function Price(k: ChargerKind, v: Variant): (r: Result<real>)
    ensures r.Ok? <==> (v.Wireless? && !k.NoneCharger?)
    ensures r.Ok? ==> r.value > 0.0
  {
    if v.Ev? || k.NoneCharger? then Err(RuntimeError("AttributeError: price"))
    else if k.DynamicCharger? then Ok(2600000.0)
    else Ok(120000.0)
  }
}
