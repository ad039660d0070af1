/**
 * The charging-start event of the rlev contrib. The charge is a double
 * printed with `charge + ""` and read back with `Double.parseDouble`; it is
 * modelled as a decimal numeral with at least one fraction digit and an
 * optional exponent, the shapes Java prints for finite doubles ("5.0E7"
 * for a charge of 5 * 10^7 J).
 */
module ChargingStartEvents {
  import opened Wrappers
  import Decimals

  const EventType: string := "charging_start"
  const AttributeCharger: string := "charger"
  const AttributeVehicle: string := "vehicle"
  const AttributeCharge: string := "charge"

  type PrintedDouble = d: Decimals.Decimal | |d.fraction| >= 1 witness Decimals.Decimal(false, 0, [0], 0)

  datatype ChargingStartEvent = ChargingStartEvent(time: real, chargerId: string, vehicleId: string, charge: PrintedDouble)

  datatype GenericEvent = GenericEvent(time: real, attributes: map<string, string>)

  function Attributes(e: ChargingStartEvent, base: map<string, string>): (m: map<string, string>)
    ensures m.Keys == base.Keys + {AttributeCharger, AttributeVehicle, AttributeCharge}
    ensures m[AttributeCharger] == e.chargerId && m[AttributeVehicle] == e.vehicleId
    ensures m[AttributeCharge] == Decimals.Print(e.charge)
    ensures forall k :: k in base && k !in {AttributeCharger, AttributeVehicle, AttributeCharge} ==> m[k] == base[k]
  {
    base[AttributeCharger := e.chargerId][AttributeVehicle := e.vehicleId][AttributeCharge := Decimals.Print(e.charge)]
  }

  /**
   * convert: a missing id reaches `Id.create` as null, a missing charge
   * reaches `Double.parseDouble` as null, and a malformed charge raises
   * NumberFormatException. A parsed charge without fraction digits ("5")
   * gets the one zero digit Java would print for it.
   */
  function Convert(g: GenericEvent): (r: Result<ChargingStartEvent>)
    ensures r.Ok? <==>
      && AttributeVehicle in g.attributes && AttributeCharger in g.attributes && AttributeCharge in g.attributes
      && Decimals.JavaParse(g.attributes[AttributeCharge]).Ok?
    ensures r.Ok? ==> r.value.time == g.time && r.value.vehicleId == g.attributes[AttributeVehicle]
    ensures r.Ok? ==> r.value.chargerId == g.attributes[AttributeCharger]
    ensures r.Ok? ==> Decimals.JavaParse(g.attributes[AttributeCharge]).Ok?
    ensures r.Ok? ==> Decimals.Value(r.value.charge) == Decimals.Value(Decimals.JavaParse(g.attributes[AttributeCharge]).value)
    ensures AttributeCharge in g.attributes && Decimals.JavaParse(g.attributes[AttributeCharge]).Err? ==>
      r == Err(NumberFormat(g.attributes[AttributeCharge])) || r == Err(NullPointer)
  {
    if AttributeVehicle !in g.attributes || AttributeCharger !in g.attributes || AttributeCharge !in g.attributes then
      Err(NullPointer)
    else
      match Decimals.JavaParse(g.attributes[AttributeCharge])
      case Err(e) => Err(e)
      case Ok(d) => Ok(ChargingStartEvent(g.time, g.attributes[AttributeCharger], g.attributes[AttributeVehicle], Padded(d)))
  }

  /** The numeral with one zero fraction digit added when it has none, as Java prints it; its value is unchanged. */
  function Padded(d: Decimals.Decimal): (p: PrintedDouble)
    ensures Decimals.Value(p) == Decimals.Value(d)
    ensures |d.fraction| >= 1 ==> p == d
  {
    if |d.fraction| >= 1 then d else Decimals.Decimal(d.negative, d.whole, [0], d.exponent)
  }

  /** Converting an event's attributes preserves time, charger, vehicle and charge. */
  lemma ConvertAttributes(e: ChargingStartEvent, base: map<string, string>)
    ensures Convert(GenericEvent(e.time, Attributes(e, base))) == Ok(e)
  {
    Decimals.ParsePrint(e.charge);
  }
}
