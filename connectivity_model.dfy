/** The records `dumpsys connectivity` is read into. The field named `type` in the source is
    `requestType` in `NetworkRequestInfo` and `timerType` in `IdleTimer`, since `type` is a keyword. */
module ConnectivityModel {

  datatype NetworkAgentInfo = NetworkAgentInfo(
    networkId: string,
    handle: string,
    networkType: string,
    connectionState: string,
    score: string,
    isValidated: bool,
    isExplicitlySelected: bool,
    interfaceName: string,
    linkAddresses: seq<string>,
    dnsAddresses: seq<string>,
    domains: string,
    serverAddress: string,
    routes: seq<string>,
    capabilities: string,
    transportInfo: string,
    signalStrength: string,
    ssid: string,
    bssid: string,
    linkSpeed: string,
    frequency: string)

  datatype NetworkRequestStats = NetworkRequestStats(
    requestCount: int, listenCount: int, backgroundRequestCount: int, totalCount: int)

  /** `NetworkRequestStats()`. */
  const NoRequestStats := NetworkRequestStats(0, 0, 0, 0)

  datatype NetworkRequestInfo = NetworkRequestInfo(
    id: string, requestType: string, capabilities: string, transports: string, requestorUid: string,
    requestorPkg: string)

  datatype PackageNetworkRequests = PackageNetworkRequests(
    packageName: string, uid: string, requests: seq<NetworkRequestInfo>)

  datatype SocketKeepaliveConfig = SocketKeepaliveConfig(
    supportedKeepalives: seq<int>, reservedPrivileged: int, allowedUnprivilegedPerUid: int)

  /** `SocketKeepaliveConfig()`. */
  const NoKeepaliveConfig := SocketKeepaliveConfig([], 0, 0)

  datatype IdleTimer = IdleTimer(interfaceName: string, timeout: int, timerType: int)

  datatype NetworkActivity = NetworkActivity(isNetworkActive: bool, idleTimers: seq<IdleTimer>)

  datatype ConnectivityDumpData = ConnectivityDumpData(
    networkProviders: seq<string>,
    activeDefaultNetwork: string,
    currentNetworks: seq<NetworkAgentInfo>,
    networkRequestStats: NetworkRequestStats,
    networkRequestsByPackage: seq<PackageNetworkRequests>,
    socketKeepaliveConfig: SocketKeepaliveConfig,
    networkActivity: NetworkActivity)
}
