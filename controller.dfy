/** The records the controller's API library hands to the report code, reduced to
    the fields the reports read. Port labels (the library's `PortIdx.String()`,
    `NumPort.String()` and `SwPort.String()`) are opaque strings here. */
module Controller {
  import opened Wrappers

  /** A device's network-configuration descriptor; the reports read only its IP. */
  datatype ConfigNetwork = ConfigNetwork(ip: string)

  /** One row of a switch's downlink table: the neighbour plugged into a port. */
  datatype DownlinkEntry = DownlinkEntry(mac: string, port: string)

  /** A device's own declared uplink: the upstream MAC, and the port as the
      gateway record labels it (`PortIdx`) and as the switch record labels it (`NumPort`). */
  datatype DeclaredUplink = DeclaredUplink(mac: string, portIdx: string, numPort: string)

  /** A gateway, switch, access point or next-generation gateway as the controller
      reports it. Only switches have a non-empty downlink table. */
  datatype RawDevice = RawDevice(
    mac: string,
    name: string,
    siteName: string,
    ip: string,
    uplink: DeclaredUplink,
    downlinkTable: seq<DownlinkEntry>,
    configNetwork: Option<ConfigNetwork>)

  /** The four device lists of one fetch. The gateway list may hold nil entries. */
  datatype RawDevices = RawDevices(
    usgs: seq<Option<RawDevice>>,
    usws: seq<RawDevice>,
    uaps: seq<RawDevice>,
    uxgs: seq<RawDevice>)

  /** A connected client station. `swName` and `apName` are filled in by the report. */
  datatype Client = Client(
    mac: string,
    ip: string,
    hostname: string,
    name: string,
    siteName: string,
    network: string,
    swMac: string,
    swName: string,
    swPort: string,
    apMac: string,
    apName: string,
    rssi: int,
    lastSeen: int,
    note: string)
}
