/** The records a bug report is read into: the processor and memory summary and the network
    service dumps found inside it. */
module BugreportModel {
  import opened Text
  import DumpDataModel
  import ConnectivityModel
  import RouteDumpModel

  datatype BugreportData = BugreportData(cpuInfo: CpuInfo, memoryInfo: MemoryInfo, networkDumps: NetworkDumps)

  /** The integer and text parts of the processor summary. */
  datatype CpuInfo = CpuInfo(
    processorCount: int,
    architecture: string,
    modelName: string,
    clockSpeed: string,
    topProcesses: seq<ProcessInfo>)

  /** One row of the `top` listing. `cpuUsage` is the ninth column with its `%` signs removed, as
      text (`"0"` when the row has no ninth column). */
  datatype ProcessInfo = ProcessInfo(pid: string, name: string, cpuUsage: string, memoryUsage: string)

  /** Memory figures in bytes (64-bit), the usage percentage, and the status text. */
  datatype MemoryInfo = MemoryInfo(
    totalMemory: int,
    availableMemory: int,
    usedMemory: int,
    freeMemory: int,
    buffers: int,
    cached: int,
    swapTotal: int,
    swapUsed: int,
    swapFree: int,
    memoryUsagePercentage: real,
    lowMemoryThreshold: int,
    abnormalStatus: string)

  /** The parsed service dumps; `None` where the bug report has no such section. */
  datatype NetworkDumps = NetworkDumps(
    wifiDump: Option<DumpDataModel.WifiDumpData>,
    networkStackDump: Option<DumpDataModel.NetworkStackDumpData>,
    netStatsDump: Option<DumpDataModel.NetStatsDumpData>,
    connectivityDump: Option<ConnectivityModel.ConnectivityDumpData>,
    routeDump: Option<RouteDumpModel.RouteDumpData>)
}
