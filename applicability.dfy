/**
 * The static check `in_resource`: whether an attribute descriptor applies to
 * a resource of a given interface type and resource class, decided without
 * any instrument session.
 */
module Applicability {
  import opened Wrappers

  /** The VISA interface types; their numeric codes do not matter here. */
  datatype InterfaceType =
    | Unknown | Gpib | Vxi | GpibVxi | Asrl | Pxi | Tcpip | Usb | Rio | Firewire

  /** A session type: an interface type and a resource class name such as "INSTR". */
  type SessionType = (InterfaceType, string)

  /** The resources an attribute declares it belongs to. */
  datatype Resources = AllSessionTypes | Only(sessionTypes: seq<SessionType>)

  /**
   * `in_resource(query)`: an unrestricted attribute applies to anything; a
   * restricted one applies exactly to the session types it lists. `None`
   * stands for a query object that carries no session type at all.
   */
  function InResource(resources: Resources, query: Option<SessionType>): (b: bool)
    ensures resources.AllSessionTypes? ==> b
    ensures resources.Only? ==> (b <==> query.Some? && query.value in resources.sessionTypes)
    ensures resources.Only? && query.None? ==> !b
  {
    match resources
    case AllSessionTypes => true
    case Only(types) =>
      match query
      case None => false
      case Some(t) => t in types
  }

  /** The resources of `AttrVI_ATTR_INTF_INST_NAME`: every session type. */
  const IntfInstNameResources: Resources := AllSessionTypes

  /** The resources of `AttrVI_ATTR_ASRL_BAUD`: serial instruments only. */
  const AsrlBaudResources: Resources := Only([(Asrl, "INSTR")])

  lemma IntfInstNameEverywhere(query: Option<SessionType>)
    ensures InResource(IntfInstNameResources, query)
  {
  }

  /** The baud-rate attribute applies to a serial instrument and to nothing else. */
  lemma AsrlBaudOnlySerialInstr(query: Option<SessionType>)
    ensures InResource(AsrlBaudResources, query) <==> query == Some((Asrl, "INSTR"))
  {
  }
}
