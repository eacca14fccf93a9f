/** The values the configuration form hands to the command generators, one
    record per form tab. Every text field holds the raw text of its entry
    box, before any stripping. */
module ConfigRequest {

  datatype Identity = Identity(
    hostname: string,
    consolePassword: string,
    enablePassword: string,
    banner: string)

  datatype LanInterface = LanInterface(name: string, ip: string, mask: string)

  /** `activate` is the "no shutdown" check box of the serial tab. */
  datatype SerialInterface = SerialInterface(
    name: string,
    ip: string,
    mask: string,
    clockRate: string,
    activate: bool)

  datatype Ssh = Ssh(domain: string, username: string, password: string)

  datatype Dhcp = Dhcp(
    pool: string,
    network: string,
    mask: string,
    gateway: string,
    rangeStart: string,
    rangeEnd: string)

  /** `protocol` is the text of the routing combo box: "rip", "ospf",
      "eigrp" or anything else (the empty string before a choice is made). */
  datatype Routing = Routing(
    protocol: string,
    network: string,
    wildcard: string,
    area: string,
    asn: string)

  datatype Request = Request(
    identity: Identity,
    lan: LanInterface,
    serial: SerialInterface,
    ssh: Ssh,
    resetInterface: string,
    dhcp: Dhcp,
    routing: Routing)

  /** One row of the VLAN table, as it was stored when it was admitted. */
  datatype VlanEntry = VlanEntry(id: string, name: string, iface: string, mode: string)

  /** Every text field empty and the serial check box unticked. */
  function EmptyRequest(): Request {
    Request(
      Identity("", "", "", ""),
      LanInterface("", "", ""),
      SerialInterface("", "", "", "", false),
      Ssh("", "", ""),
      "",
      Dhcp("", "", "", "", "", ""),
      Routing("", "", "", "", ""))
  }
}
