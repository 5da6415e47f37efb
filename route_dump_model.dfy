/** The records the output of `ip rule show` and `ip route show table <n>` is read into. */
module RouteDumpModel {

  /** What a route query returns: the policy rules, the route tables that had routes, and the
      errors met on the way. */
  datatype RouteDumpData = RouteDumpData(ipRules: seq<IpRule>, routeTables: seq<RouteTable>, parseErrors: seq<string>)

  /** One line of `ip rule show`, with the fields read from it. */
  datatype IpRule = IpRule(
    priority: string,
    fromSource: string,
    fwmark: string,
    lookup: string,
    tableNumber: string,
    originalLine: string,
    ruleType: RuleType,
    description: string)

  datatype RouteTable = RouteTable(tableNumber: string, tableName: string, routes: seq<RouteEntry>, description: string)

  /** One line of `ip route show table <n>`. */
  datatype RouteEntry = RouteEntry(
    destination: string,
    gateway: string,
    device: string,
    scope: string,
    source: string,
    metric: string,
    protocol: string,
    originalLine: string,
    routeType: RouteType,
    description: string)

  datatype RuleType = FROM_ALL | FROM_SPECIFIC | FWMARK | IIF | OIF | LOOKUP | GOTO | UNKNOWN

  datatype RouteType = UNICAST | LOCAL | BROADCAST | MULTICAST | BLACKHOLE | UNREACHABLE | PROHIBIT | DEFAULT
}
