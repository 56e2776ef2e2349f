/** The parsed description of a UPnP device and its embedded devices. */
module DeviceTree {
  import opened Wrappers

  /** `service` is the device's BasicManagement service, when it has one. */
  datatype DeviceInfo = DeviceInfo(udn: Option<string>, service: Option<string>, children: seq<DeviceInfo>)

  /** The UDNs of the strict descendants that have both a service and a UDN, in pre-order. */
  function ManagedBelow(info: DeviceInfo): seq<string>
    decreases info, 1
  {
    ManagedForest(info.children)
  }

  function ManagedForest(infos: seq<DeviceInfo>): seq<string>
    decreases infos, 0
  {
    if infos == [] then []
    else Managed(infos[0]) + ManagedForest(infos[1..])
  }

  /** The same list with the device itself, when it qualifies, in front. */
  function Managed(info: DeviceInfo): seq<string>
    decreases info, 2
  {
    (if info.service.Some? && info.udn.Some? then [info.udn.value] else []) + ManagedBelow(info)
  }

  /** A device with a service and no embedded devices. */
  function Plain(udn: string): DeviceInfo {
    DeviceInfo(Some(udn), Some("BasicManagement"), [])
  }
}
