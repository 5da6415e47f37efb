/** `NetworkStackParser`: reads the output of `dumpsys network_stack`, split on '\n', into DHCP client
    records and validation logs. Both are single loops over the lines that append a record on one
    kind of line and patch the last record on others; each loop is proved equal to a fold of a
    one-line step, and the lemmas below say what the fold keeps, appends and patches. */
module NetworkStackParser {
  import opened Text
  import opened Patterns
  import opened DumpDataModel

  // ----- Reading one line -----

  /** `[0-9.]`. */
  const IpChar: CharClass := Chars("0123456789.")

  const InterfacePattern: Pattern := KeyedRun("IpClient.", Word)
  const IpAddressPattern: Pattern := KeyedRun("IPv4 address: ", IpChar)
  const ServerPattern: Pattern := KeyedRun("DHCP server /", IpChar)
  const LeasePattern: Pattern := KeyedRunThen("lease ", Digit, " seconds")
  const DnsPattern: Pattern := KeyedRun("/", IpChar)

  /** `extractInterface`. */
  function ExtractInterface(line: string): string
  {
    StringOr(FindGroup(InterfacePattern, line, 1), "Unknown")
  }

  /** `extractIpAddress`. */
  function ExtractIpAddress(line: string): string
  {
    StringOr(FindGroup(IpAddressPattern, line, 1), "Unknown")
  }

  /** `extractServerAddress`. */
  function ExtractServerAddress(line: string): string
  {
    StringOr(FindGroup(ServerPattern, line, 1), "Unknown")
  }

  /** `extractLeaseTime`: the seconds with an `s` appended. */
  function ExtractLeaseTime(line: string): string
  {
    match FindGroup(LeasePattern, line, 1)
    case Some(seconds) => seconds + "s"
    case None => "Unknown"
  }

  /** The addresses `extractDnsServers` collects: every `/` followed by digits and dots, in order. */
  function DnsServersOf(line: string): seq<string>
  {
    FindAllFrom(DnsPattern, line, 0, 1)
  }

  /** `extractDnsServers`: group 1 of every match of `/([0-9.]+)`. */
  method ExtractDnsServers(line: string) returns (servers: seq<string>)
    ensures servers == DnsServersOf(line)
  {
    servers := FindAllValues(DnsPattern, line, 1);
  }

  /** The interface is the reference reading of `IpClient.` followed by word characters, or
      "Unknown" when there is none. */
  lemma InterfaceField(line: string)
    ensures ExtractInterface(line) == StringOr(KeyedValue(line, "IpClient.", Word), "Unknown")
  {
    FindKeyedRun("IpClient.", Word, line);
  }

  /** The address is "Unknown" exactly when no digit or dot follows `IPv4 address: `, and is
      otherwise the reference reading: a run of digits and dots. */
  lemma IpAddressField(line: string)
    ensures var ip := ExtractIpAddress(line);
            && ip == StringOr(KeyedValue(line, "IPv4 address: ", IpChar), "Unknown")
            && (ip == "Unknown" <==> KeyedValue(line, "IPv4 address: ", IpChar).None?)
            && (ip != "Unknown" ==> RunOf(ip, IpChar))
  {
    FindKeyedRun("IPv4 address: ", IpChar, line);
    assert !InClass('U', IpChar);
  }

  /** Likewise for the server after `DHCP server /`. */
  lemma ServerField(line: string)
    ensures var server := ExtractServerAddress(line);
            && server == StringOr(KeyedValue(line, "DHCP server /", IpChar), "Unknown")
            && (server == "Unknown" <==> KeyedValue(line, "DHCP server /", IpChar).None?)
            && (server != "Unknown" ==> RunOf(server, IpChar))
  {
    FindKeyedRun("DHCP server /", IpChar, line);
    assert !InClass('U', IpChar);
  }

  /** The lease time is "Unknown" exactly when `lease <digits> seconds` does not occur, and is
      otherwise those digits followed by `s`. */
  lemma LeaseTimeSpec(line: string)
    ensures var t := ExtractLeaseTime(line);
            && (t == "Unknown" <==> FindGroup(LeasePattern, line, 1).None?)
            && (t != "Unknown" ==> |t| >= 2 && t[|t| - 1] == 's' && RunOf(t[..|t| - 1], Digit))
            && (!Contains(line, "lease ") ==> t == "Unknown")
  {
    FindKeyedRunThen("lease ", Digit, " seconds", line);
    var v := FindGroup(LeasePattern, line, 1);
    if v.Some? {
      var t := v.value + "s";
      assert t[0] == v.value[0];
      assert t[..|t| - 1] == v.value;
    }
  }

  /** Every DNS server is a run of digits and dots, and a line without `/` has none. */
  lemma DnsServersSpec(line: string)
    ensures forall v :: v in DnsServersOf(line) ==> RunOf(v, IpChar)
    ensures !Contains(line, "/") ==> DnsServersOf(line) == []
  {
    FindAllKeyedRun("/", IpChar, line, 0);
    if !Contains(line, "/") {
      assert DnsPattern == [Lit("/")] + DnsPattern[1..];
      FindWithoutLit("/", DnsPattern[1..], line);
    }
  }

  // ----- Sequences patched at the end -----

  /** `b` is at least as long as `a` and agrees with it everywhere but at `a`'s last position: what
      appending a record and patching the last record both keep. */
  ghost predicate KeepsAllButLast<T>(a: seq<T>, b: seq<T>)
  {
    |a| <= |b| && forall k :: 0 <= k < |a| - 1 ==> b[k] == a[k]
  }

  lemma KeepsAllButLastTransitive<T>(a: seq<T>, b: seq<T>, c: seq<T>)
    requires KeepsAllButLast(a, b) && KeepsAllButLast(b, c)
    ensures KeepsAllButLast(a, c)
  {
  }

  // ----- DHCP client records -----

  /** The loop variables of `parseDhcpRecords`. */
  datatype DhcpScan = DhcpScan(records: seq<DhcpRecord>, inSection: bool, iface: string)

  /** A line that (re)opens the DHCP section and names the current interface. */
  predicate DhcpHeader(line: string)
  {
    Contains(line, "DHCP Client记录") || Contains(line, "IpClient")
  }

  /** Sets the last record's server and lease, when there is a last record. */
  function WithServer(records: seq<DhcpRecord>, line: string): seq<DhcpRecord>
  {
    if |records| > 0 then
      records[|records| - 1 := records[|records| - 1].(serverAddress := ExtractServerAddress(line),
                                                       leaseTime := ExtractLeaseTime(line))]
    else records
  }

  /** Sets the last record's DNS servers, when there is a last record. */
  function WithDns(records: seq<DhcpRecord>, line: string): seq<DhcpRecord>
  {
    if |records| > 0 then records[|records| - 1 := records[|records| - 1].(dnsServers := DnsServersOf(line))]
    else records
  }

  /** The records after a line inside the section that is not a header: an `IPv4 address:` line
      appends a record, then `DHCP server` and `DnsAddresses:` lines patch the last one. */
  function DhcpBody(records: seq<DhcpRecord>, iface: string, line: string): seq<DhcpRecord>
  {
    var added :=
      if Contains(line, "IPv4 address:") then records + [DhcpRecord(iface, ExtractIpAddress(line), "", "", [])]
      else records;
    var served := if Contains(line, "DHCP server") then WithServer(added, line) else added;
    if Contains(line, "DnsAddresses:") then WithDns(served, line) else served
  }

  /** One pass of the loop body of `parseDhcpRecords`. */
  function DhcpStep(st: DhcpScan, line: string): DhcpScan
  {
    if DhcpHeader(line) then DhcpScan(st.records, true, ExtractInterface(line))
    else if st.inSection then DhcpScan(DhcpBody(st.records, st.iface, line), true, st.iface)
    else st
  }

  /** The loop variables after the first `i` lines. */
  function DhcpTo(lines: seq<string>, i: nat): DhcpScan
    requires i <= |lines|
  {
    if i == 0 then DhcpScan([], false, "") else DhcpStep(DhcpTo(lines, i - 1), lines[i - 1])
  }

  /** `parseDhcpRecords`. */
  method ParseDhcpRecords(lines: seq<string>) returns (records: seq<DhcpRecord>)
    ensures records == DhcpTo(lines, |lines|).records
  {
    records := [];
    var inSection := false;
    var currentInterface := "";
    for i := 0 to |lines|
      invariant DhcpScan(records, inSection, currentInterface) == DhcpTo(lines, i)
    {
      var line := lines[i];
      if Contains(line, "DHCP Client记录") || Contains(line, "IpClient") {
        inSection := true;
        currentInterface := ExtractInterface(line);
        continue;
      }
      if inSection {
        records := ReadDhcpLine(records, currentInterface, line);
      }
    }
  }

  /** The three tests `parseDhcpRecords` makes on a line inside the section. */
  method ReadDhcpLine(records0: seq<DhcpRecord>, currentInterface: string, line: string)
    returns (records: seq<DhcpRecord>)
    ensures records == DhcpBody(records0, currentInterface, line)
  {
    records := records0;
    if Contains(line, "IPv4 address:") {
      var ipAddress := ExtractIpAddress(line);
      records := records + [DhcpRecord(currentInterface, ipAddress, "", "", [])];
    }
    if Contains(line, "DHCP server") {
      var serverAddress := ExtractServerAddress(line);
      var leaseTime := ExtractLeaseTime(line);
      if |records| > 0 {
        var lastRecord := records[|records| - 1];
        records := records[|records| - 1 := lastRecord.(serverAddress := serverAddress, leaseTime := leaseTime)];
      }
    }
    if Contains(line, "DnsAddresses:") {
      var dnsServers := ExtractDnsServers(line);
      if |records| > 0 {
        var lastRecord := records[|records| - 1];
        records := records[|records| - 1 := lastRecord.(dnsServers := dnsServers)];
      }
    }
  }

  /** The section is open after the first header line, and the current interface is the one the
      latest header line names ("" before any). */
  lemma {:induction false} DhcpSectionState(lines: seq<string>, i: nat)
    requires i <= |lines|
    ensures var st := DhcpTo(lines, i);
            var h := LastIndexIn(lines, 0, i, DhcpHeader);
            && (st.inSection <==> h.Some?)
            && st.iface == (if h.Some? then ExtractInterface(lines[h.value]) else "")
  {
    if i > 0 {
      DhcpSectionState(lines, i - 1);
    }
  }

  /** Inside the section, an `IPv4 address:` line that is not a header appends exactly one record,
      for the current interface, and leaves the earlier records alone; unless the same line also
      patches it, the new record has no server, lease or DNS. */
  lemma DhcpAppends(st: DhcpScan, line: string)
    requires st.inSection && !DhcpHeader(line) && Contains(line, "IPv4 address:")
    ensures var r := DhcpStep(st, line).records;
            var n := |st.records|;
            && |r| == n + 1 && r[..n] == st.records
            && r[n].interfaceName == st.iface && r[n].ipAddress == ExtractIpAddress(line)
            && (!Contains(line, "DHCP server") && !Contains(line, "DnsAddresses:") ==>
                  r[n] == DhcpRecord(st.iface, ExtractIpAddress(line), "", "", []))
  {
    var n := |st.records|;
    var added := st.records + [DhcpRecord(st.iface, ExtractIpAddress(line), "", "", [])];
    assert added[..n] == st.records;
    var served := if Contains(line, "DHCP server") then WithServer(added, line) else added;
    assert served[..n] == st.records;
  }

  /** Any other line keeps the number of records; a `DHCP server` or `DnsAddresses:` line inside the
      section rewrites only the last record's server and lease, or its DNS servers, and nothing when
      there is no record. */
  lemma DhcpPatches(st: DhcpScan, line: string)
    requires !(st.inSection && !DhcpHeader(line) && Contains(line, "IPv4 address:"))
    ensures var r := DhcpStep(st, line).records;
            && |r| == |st.records|
            && KeepsAllButLast(st.records, r)
            && (|r| > 0 ==>
                  var before := st.records[|r| - 1];
                  var after := r[|r| - 1];
                  var patching := st.inSection && !DhcpHeader(line);
                  && after.interfaceName == before.interfaceName && after.ipAddress == before.ipAddress
                  && (patching && Contains(line, "DHCP server") ==>
                        after.serverAddress == ExtractServerAddress(line) && after.leaseTime == ExtractLeaseTime(line))
                  && (!(patching && Contains(line, "DHCP server")) ==>
                        after.serverAddress == before.serverAddress && after.leaseTime == before.leaseTime)
                  && (patching && Contains(line, "DnsAddresses:") ==> after.dnsServers == DnsServersOf(line))
                  && (!(patching && Contains(line, "DnsAddresses:")) ==> after.dnsServers == before.dnsServers))
  {
  }

  /** Appending or patching never disturbs a record other than the last. */
  lemma DhcpStepKeeps(st: DhcpScan, line: string)
    ensures KeepsAllButLast(st.records, DhcpStep(st, line).records)
  {
    if st.inSection && !DhcpHeader(line) && Contains(line, "IPv4 address:") {
      DhcpAppends(st, line);
    } else {
      DhcpPatches(st, line);
    }
  }

  /** Every record but the last one at any point is final: later lines never change it. */
  lemma {:induction false} DhcpRecordsKept(lines: seq<string>, i: nat, j: nat)
    requires i <= j <= |lines|
    ensures KeepsAllButLast(DhcpTo(lines, i).records, DhcpTo(lines, j).records)
    decreases j - i
  {
    if i < j {
      DhcpRecordsKept(lines, i, j - 1);
      DhcpStepKeeps(DhcpTo(lines, j - 1), lines[j - 1]);
      KeepsAllButLastTransitive(DhcpTo(lines, i).records, DhcpTo(lines, j - 1).records, DhcpTo(lines, j).records);
    }
  }

  // ----- Validation logs -----

  /** The loop variables of `parseValidationLogs`. */
  datatype ValidationScan = ValidationScan(
    logs: seq<ValidationLog>, inSection: bool, networkId: string, networkName: string)

  /** A line that (re)opens the validation section. */
  predicate ValidationHeader(line: string)
  {
    Contains(line, "重要输出，记录了NetworkMonitor") || Contains(line, "Validation logs")
  }

  /** A line that names the network: it contains ` - ` and is not a header. */
  predicate IdentityLine(line: string)
  {
    !ValidationHeader(line) && Contains(line, " - ")
  }

  /** Kotlin `replace("\"", "")`. */
  function Unquoted(s: string): (r: string)
    ensures forall c :: c in r ==> c != '"'
  {
    Filter(s, (c: char) => c != '"')
  }

  /** "OK" when the line contains `marker`, "FAILED" otherwise. */
  function ProbeResult(line: string, marker: string): (r: string)
    ensures r == "OK" <==> Contains(line, marker)
  {
    if Contains(line, marker) then "OK" else "FAILED"
  }

  /** The network id and name a ` - ` line sets: the trimmed text before the first ` - `, and the
      trimmed, unquoted text between it and the next ` - `. */
  function Identity(line: string): (string, string)
  {
    (Trim(SubstringBefore(line, " - ")), Trim(Unquoted(SubstringBefore(SubstringAfter(line, " - "), " - "))))
  }

  /** The split of a ` - ` line. */
  function WithIdentity(st: ValidationScan, line: string): ValidationScan
  {
    var parts := Split(line, " - ");
    if |parts| >= 2 then st.(networkId := Trim(parts[0]), networkName := Trim(Unquoted(parts[1]))) else st
  }

  /** Sets the last log's HTTP (`https` false) or HTTPS (`https` true) result, when there is a last log. */
  function WithProbe(logs: seq<ValidationLog>, line: string, https: bool): seq<ValidationLog>
  {
    if |logs| == 0 then logs
    else if https then logs[|logs| - 1 := logs[|logs| - 1].(httpsProbeResult := ProbeResult(line, "ret=204"))]
    else logs[|logs| - 1 := logs[|logs| - 1].(httpProbeResult := ProbeResult(line, "ret=204"))]
  }

  /** The loop variables after a line inside the section that is not a header: a ` - ` line names the
      network, a `PROBE_DNS` line appends a log, then `PROBE_HTTP` and `PROBE_HTTPS` lines patch the
      last one. */
  function ValidationBody(st: ValidationScan, line: string): ValidationScan
  {
    var named := if Contains(line, " - ") then WithIdentity(st, line) else st;
    named.(logs := ProbeLogs(named, line))
  }

  /** The logs after the probe tests, for the network named so far. */
  function ProbeLogs(named: ValidationScan, line: string): seq<ValidationLog>
  {
    var dns :=
      if Contains(line, "PROBE_DNS")
      then named.logs + [ValidationLog(named.networkId, named.networkName, ProbeResult(line, "OK"), "", "")]
      else named.logs;
    var http := if Contains(line, "PROBE_HTTP") then WithProbe(dns, line, false) else dns;
    if Contains(line, "PROBE_HTTPS") then WithProbe(http, line, true) else http
  }

  /** One pass of the loop body of `parseValidationLogs`. */
  function ValidationStep(st: ValidationScan, line: string): ValidationScan
  {
    if ValidationHeader(line) then st.(inSection := true)
    else if st.inSection then ValidationBody(st, line)
    else st
  }

  /** The loop variables after the first `i` lines. */
  function ValidationTo(lines: seq<string>, i: nat): ValidationScan
    requires i <= |lines|
  {
    if i == 0 then ValidationScan([], false, "", "") else ValidationStep(ValidationTo(lines, i - 1), lines[i - 1])
  }

  /** `parseValidationLogs`: at most the first ten logs. */
  method ParseValidationLogs(lines: seq<string>) returns (logs: seq<ValidationLog>)
    ensures logs == Take(ValidationTo(lines, |lines|).logs, 10)
    ensures |logs| <= 10
  {
    var all: seq<ValidationLog> := [];
    var inSection := false;
    var currentNetworkId := "";
    var currentNetworkName := "";
    for i := 0 to |lines|
      invariant ValidationScan(all, inSection, currentNetworkId, currentNetworkName) == ValidationTo(lines, i)
    {
      var line := lines[i];
      if Contains(line, "重要输出，记录了NetworkMonitor") || Contains(line, "Validation logs") {
        inSection := true;
        continue;
      }
      if inSection {
        var st := ReadValidationLine(ValidationScan(all, true, currentNetworkId, currentNetworkName), line);
        all, currentNetworkId, currentNetworkName := st.logs, st.networkId, st.networkName;
      }
    }
    logs := Take(all, 10);
  }

  /** The four tests `parseValidationLogs` makes on a line inside the section. */
  method ReadValidationLine(st0: ValidationScan, line: string) returns (st: ValidationScan)
    ensures st == ValidationBody(st0, line)
  {
    var currentNetworkId := st0.networkId;
    var currentNetworkName := st0.networkName;
    if Contains(line, " - ") {
      var parts := Split(line, " - ");
      if |parts| >= 2 {
        currentNetworkId := Trim(parts[0]);
        currentNetworkName := Trim(Unquoted(parts[1]));
      }
    }
    st := st0.(networkId := currentNetworkId, networkName := currentNetworkName);
    var logs := ReadProbes(st, line);
    st := st.(logs := logs);
  }

  /** The three probe tests, for the network named so far. */
  method ReadProbes(named: ValidationScan, line: string) returns (logs: seq<ValidationLog>)
    ensures logs == ProbeLogs(named, line)
  {
    logs := named.logs;
    if Contains(line, "PROBE_DNS") {
      var dnsResult := if Contains(line, "OK") then "OK" else "FAILED";
      logs := logs + [ValidationLog(named.networkId, named.networkName, dnsResult, "", "")];
    }
    if Contains(line, "PROBE_HTTP") {
      var httpResult := if Contains(line, "ret=204") then "OK" else "FAILED";
      if |logs| > 0 {
        var lastLog := logs[|logs| - 1];
        logs := logs[|logs| - 1 := lastLog.(httpProbeResult := httpResult)];
      }
    }
    if Contains(line, "PROBE_HTTPS") {
      var httpsResult := if Contains(line, "ret=204") then "OK" else "FAILED";
      if |logs| > 0 {
        var lastLog := logs[|logs| - 1];
        logs := logs[|logs| - 1 := lastLog.(httpsProbeResult := httpsResult)];
      }
    }
  }

  /** The ` - ` split reads the same identity as `Identity`. */
  lemma WithIdentitySpec(st: ValidationScan, line: string)
    requires Contains(line, " - ")
    ensures var r := WithIdentity(st, line);
            (r.networkId, r.networkName) == Identity(line) && r.logs == st.logs && r.inSection == st.inSection
  {
    SplitHead(line, " - ");
  }

  /** The section is open after the first header line. */
  lemma {:induction false} ValidationSectionState(lines: seq<string>, i: nat)
    requires i <= |lines|
    ensures ValidationTo(lines, i).inSection <==> LastIndexIn(lines, 0, i, ValidationHeader).Some?
  {
    if i > 0 {
      ValidationSectionState(lines, i - 1);
    }
  }

  /** A step sets the network id and name exactly on a ` - ` line inside the section. */
  lemma ValidationStepIdentity(st: ValidationScan, line: string)
    ensures var r := ValidationStep(st, line);
            (r.networkId, r.networkName) ==
              (if st.inSection && IdentityLine(line) then Identity(line) else (st.networkId, st.networkName))
  {
    if st.inSection && IdentityLine(line) {
      WithIdentitySpec(st, line);
    }
  }

  /** The value a marked line read after the first opening line sets: what `read` makes of the latest
      marked line among the first `i` when an opening line precedes it, the initial value otherwise. */
  function LatestAfterOpen<T, S>(xs: seq<T>, i: nat, isOpen: T -> bool, isMark: T -> bool, read: T -> S, none: S): S
    requires i <= |xs|
  {
    var h := FirstIndexFrom(xs, 0, isOpen);
    var k := LastIndexIn(xs, 0, i, isMark);
    if k.Some? && h.Some? && h.value < k.value then read(xs[k.value]) else none
  }

  /** Reading one more line moves `LatestAfterOpen` to that line exactly when it is marked and an
      opening line came before it. */
  lemma LatestAfterOpenStep<T, S>(xs: seq<T>, i: nat, isOpen: T -> bool, isMark: T -> bool, read: T -> S, none: S)
    requires 0 < i <= |xs|
    ensures LatestAfterOpen(xs, i, isOpen, isMark, read, none) ==
              if LastIndexIn(xs, 0, i - 1, isOpen).Some? && isMark(xs[i - 1]) then read(xs[i - 1])
              else LatestAfterOpen(xs, i - 1, isOpen, isMark, read, none)
  {
    var h := FirstIndexFrom(xs, 0, isOpen);
    var last := LastIndexIn(xs, 0, i - 1, isOpen);
    if last.Some? {
      assert isOpen(xs[last.value]);
    }
    if h.Some? && h.value < i - 1 {
      assert isOpen(xs[h.value]);
    }
  }

  /** The network id and name come from the latest ` - ` line, provided a header came before it;
      otherwise they are still "". */
  lemma {:induction false} ValidationIdentity(lines: seq<string>, i: nat)
    requires i <= |lines|
    ensures var st := ValidationTo(lines, i);
            (st.networkId, st.networkName) == LatestAfterOpen(lines, i, ValidationHeader, IdentityLine, Identity, ("", ""))
  {
    if i > 0 {
      ValidationIdentity(lines, i - 1);
      ValidationStepIdentity(ValidationTo(lines, i - 1), lines[i - 1]);
      ValidationSectionState(lines, i - 1);
      LatestAfterOpenStep(lines, i, ValidationHeader, IdentityLine, Identity, ("", ""));
    }
  }

  /** Inside the section, a `PROBE_DNS` line that is not a header appends exactly one log, for the
      network named so far (or by this line), with DNS "OK" exactly when the line contains `OK`. */
  lemma ValidationAppends(st: ValidationScan, line: string)
    requires st.inSection && !ValidationHeader(line) && Contains(line, "PROBE_DNS")
    ensures var r := ValidationStep(st, line);
            var n := |st.logs|;
            && |r.logs| == n + 1 && r.logs[..n] == st.logs
            && r.logs[n].networkId == r.networkId && r.logs[n].networkName == r.networkName
            && (r.logs[n].dnsProbeResult == "OK" <==> Contains(line, "OK"))
  {
    var n := |st.logs|;
    var named := if Contains(line, " - ") then WithIdentity(st, line) else st;
    if Contains(line, " - ") {
      WithIdentitySpec(st, line);
    }
    var dns := named.logs + [ValidationLog(named.networkId, named.networkName, ProbeResult(line, "OK"), "", "")];
    assert dns[..n] == st.logs;
    var http := if Contains(line, "PROBE_HTTP") then WithProbe(dns, line, false) else dns;
    assert http[..n] == st.logs;
  }

  /** Any other line keeps the number of logs and every log but the last; with no log it changes none. */
  lemma ValidationPatches(st: ValidationScan, line: string)
    requires !(st.inSection && !ValidationHeader(line) && Contains(line, "PROBE_DNS"))
    ensures var r := ValidationStep(st, line).logs;
            |r| == |st.logs| && KeepsAllButLast(st.logs, r) && (|st.logs| == 0 ==> r == [])
  {
    if !ValidationHeader(line) && st.inSection && Contains(line, " - ") {
      WithIdentitySpec(st, line);
    }
  }

  /** A `PROBE_HTTPS` line inside the section also passes the `PROBE_HTTP` test, so it sets both the
      HTTP and the HTTPS result of the last log to "OK" exactly when it contains `ret=204`. */
  lemma ProbeHttpsSetsBoth(st: ValidationScan, line: string)
    requires st.inSection && !ValidationHeader(line) && Contains(line, "PROBE_HTTPS")
    requires |ValidationStep(st, line).logs| > 0
    ensures var r := ValidationStep(st, line).logs;
            var last := r[|r| - 1];
            && last.httpProbeResult == last.httpsProbeResult
            && (last.httpsProbeResult == "OK" <==> Contains(line, "ret=204"))
  {
    assert "PROBE_HTTPS" == "PROBE_HTTP" + "S";
    ContainsPrefixOf(line, "PROBE_HTTP", "S");
    if Contains(line, " - ") {
      WithIdentitySpec(st, line);
    }
  }

  /** Appending or patching never disturbs a log other than the last. */
  lemma ValidationStepKeeps(st: ValidationScan, line: string)
    ensures KeepsAllButLast(st.logs, ValidationStep(st, line).logs)
  {
    if st.inSection && !ValidationHeader(line) && Contains(line, "PROBE_DNS") {
      ValidationAppends(st, line);
    } else {
      ValidationPatches(st, line);
    }
  }

  /** Every log but the last one at any point is final: later lines never change it. */
  lemma {:induction false} ValidationLogsKept(lines: seq<string>, i: nat, j: nat)
    requires i <= j <= |lines|
    ensures KeepsAllButLast(ValidationTo(lines, i).logs, ValidationTo(lines, j).logs)
    decreases j - i
  {
    if i < j {
      ValidationLogsKept(lines, i, j - 1);
      ValidationStepKeeps(ValidationTo(lines, j - 1), lines[j - 1]);
      KeepsAllButLastTransitive(ValidationTo(lines, i).logs, ValidationTo(lines, j - 1).logs,
                                ValidationTo(lines, j).logs);
    }
  }

  // ----- The whole dump -----

  function NetworkStackOf(dump: string): NetworkStackDumpData
  {
    var lines := Split(dump, "\n");
    NetworkStackDumpData(DhcpTo(lines, |lines|).records, Take(ValidationTo(lines, |lines|).logs, 10))
  }

  /** `parseNetworkStackDump`. */
  method ParseNetworkStackDump(dump: string) returns (data: NetworkStackDumpData)
    ensures data == NetworkStackOf(dump)
    ensures |data.validationLogs| <= 10
  {
    var lines := Split(dump, "\n");
    var records := ParseDhcpRecords(lines);
    var logs := ParseValidationLogs(lines);
    data := NetworkStackDumpData(records, logs);
  }
}
