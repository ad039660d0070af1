/**
 * The link-change event of the ev contrib. Ids are modelled by their
 * string form, which is what `id + ""` writes and `Id.createLinkId` reads.
 */
module ChangeLinkEvents {
  import opened Wrappers

  const EventType: string := "link_changed"
  const AttributeVehicle: string := "vehicle"
  const AttributeOldLink: string := "old_link"
  const AttributeCurrentLink: string := "current_link"

  /** The constructor's arguments, kept as they are; the getters are the fields. */
  datatype ChangeLinkEvent = ChangeLinkEvent(time: real, oldLinkId: string, currentLinkId: string, vehicleId: string)

  /** An event as read back from an events file: its time and its attribute map. */
  datatype GenericEvent = GenericEvent(time: real, attributes: map<string, string>)

  /**
   * getAttributes: the base event's map (time, type and whatever else the
   * base class writes, given here as `base`) with the three ids added.
   */
  function Attributes(e: ChangeLinkEvent, base: map<string, string>): (m: map<string, string>)
    ensures m.Keys == base.Keys + {AttributeOldLink, AttributeCurrentLink, AttributeVehicle}
    ensures m[AttributeOldLink] == e.oldLinkId && m[AttributeCurrentLink] == e.currentLinkId
    ensures m[AttributeVehicle] == e.vehicleId
    ensures forall k :: k in base && k !in {AttributeOldLink, AttributeCurrentLink, AttributeVehicle} ==> m[k] == base[k]
  {
    base[AttributeOldLink := e.oldLinkId][AttributeCurrentLink := e.currentLinkId][AttributeVehicle := e.vehicleId]
  }

  /** convert: a missing attribute reaches `Id.create` as null and fails. */
  function Convert(g: GenericEvent): (r: Result<ChangeLinkEvent>)
    ensures r.Ok? <==> AttributeVehicle in g.attributes && AttributeOldLink in g.attributes && AttributeCurrentLink in g.attributes
    ensures r.Ok? ==> r.value.time == g.time && r.value.vehicleId == g.attributes[AttributeVehicle]
    ensures r.Ok? ==> r.value.oldLinkId == g.attributes[AttributeOldLink]
    ensures r.Ok? ==> r.value.currentLinkId == g.attributes[AttributeCurrentLink]
  {
    if AttributeVehicle !in g.attributes || AttributeOldLink !in g.attributes || AttributeCurrentLink !in g.attributes then
      Err(NullPointer)
    else
      Ok(ChangeLinkEvent(g.time, g.attributes[AttributeOldLink], g.attributes[AttributeCurrentLink], g.attributes[AttributeVehicle]))
  }

  /** Writing an event's attributes and converting them back gives the same event, whatever the base map holds. */
  lemma ConvertAttributes(e: ChangeLinkEvent, base: map<string, string>)
    ensures Convert(GenericEvent(e.time, Attributes(e, base))) == Ok(e)
  {
  }
}
