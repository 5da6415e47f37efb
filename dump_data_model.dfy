/** The records of the Wi-Fi, network stack and network statistics dumps. */
module DumpDataModel {

  datatype WifiDumpData = WifiDumpData(
    logLevel: string,
    airplaneMode: string,
    wifiEnabled: string,
    wifiControllerState: string,
    clientModeManagerState: string,
    clientModeImplState: string,
    supplicantState: string,
    interfaceName: string,
    interfaceUp: bool,
    interfaceRole: string,
    currentSSID: string,
    currentBSSID: string,
    macAddress: string,
    securityType: string,
    wifiStandard: string,
    rssi: string,
    linkSpeed: string,
    txLinkSpeed: string,
    rxLinkSpeed: string,
    frequency: string,
    networkId: string,
    networkScore: string,
    ipAddress: string,
    gateway: string,
    dnsServers: seq<string>,
    dhcpLeaseDuration: string,
    dualStaSupport: bool,
    staApConcurrency: bool,
    controllerHistory: seq<StateChangeRecord>,
    clientModeHistory: seq<StateChangeRecord>,
    supplicantHistory: seq<StateChangeRecord>,
    scoreReports: seq<WifiScoreRecord>,
    eventHistory: seq<WifiEvent>)

  datatype StateChangeRecord = StateChangeRecord(
    timestamp: string, fromState: string, toState: string, command: string, description: string)

  datatype WifiScoreRecord = WifiScoreRecord(
    timestamp: string,
    session: string,
    netId: string,
    rssi: string,
    filteredRssi: string,
    frequency: string,
    txLinkSpeed: string,
    rxLinkSpeed: string,
    txThroughput: string,
    rxThroughput: string,
    score: string)

  datatype WifiEvent = WifiEvent(timestamp: string, eventType: string, screenOn: bool, details: string)

  datatype NetworkStackDumpData = NetworkStackDumpData(
    dhcpClientRecords: seq<DhcpRecord>, validationLogs: seq<ValidationLog>)

  datatype DhcpRecord = DhcpRecord(
    interfaceName: string, ipAddress: string, serverAddress: string, leaseTime: string, dnsServers: seq<string>)

  datatype ValidationLog = ValidationLog(
    networkId: string, networkName: string, dnsProbeResult: string, httpProbeResult: string,
    httpsProbeResult: string)

  datatype NetStatsDumpData = NetStatsDumpData(
    activeInterfaces: seq<InterfaceInfo>, devStats: seq<DeviceStats>, xtStats: seq<XtStats>)

  /** `type` in the source; renamed since `type` is a keyword. */
  datatype InterfaceInfo = InterfaceInfo(
    interfaceName: string, interfaceType: string, networkId: string, metered: bool, defaultNetwork: bool)

  /** The counters are Kotlin `Long`s. */
  datatype DeviceStats = DeviceStats(
    networkId: string, receivedBytes: int, receivedPackets: int, transmittedBytes: int, transmittedPackets: int)

  datatype XtStats = XtStats(
    networkId: string, receivedBytes: int, receivedPackets: int, transmittedBytes: int, transmittedPackets: int)
}
