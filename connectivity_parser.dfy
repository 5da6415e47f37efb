/** `ConnectivityParser`: reads the output of `dumpsys connectivity`, split with Kotlin `lines()`, into
    a `ConnectivityDumpData`. Each loop of the source is a method proved equal to a function over the
    lines; the functions carry the properties. */
module ConnectivityParser {
  import opened Text
  import opened Patterns
  import opened ConnectivityModel

  predicate NotBlank(s: string) { !IsBlank(s) }

  // ----- Providers and the default network -----

  const ProvidersMarker := "NetworkProviders for:"
  const DefaultNetworkMarker := "Active default network:"

  /** `parseNetworkProviders`: the space-separated words after the marker on the first line that has
      it, blanks dropped; none without such a line. */
  function ParseNetworkProviders(lines: seq<string>): (r: seq<string>)
    ensures FirstLineWith(lines, ProvidersMarker).None? ==> r == []
    ensures forall p :: p in r ==> NotBlank(p) && !Contains(p, " ")
  {
    match FirstLineWith(lines, ProvidersMarker)
    case None => []
    case Some(k) =>
      var pieces := Split(SubstringAfter(lines[k], ProvidersMarker), " ");
      SplitPiecesLackDelimiter(SubstringAfter(lines[k], ProvidersMarker), " ");
      Filter(pieces, NotBlank)
  }

  /** The providers are the non-blank pieces of the text after the marker: joining all pieces with a
      space gives that text back, so no provider is lost or invented. */
  lemma ProvidersComeFromMarkerLine(lines: seq<string>)
    requires FirstLineWith(lines, ProvidersMarker).Some?
    ensures var t := SubstringAfter(lines[FirstLineWith(lines, ProvidersMarker).value], ProvidersMarker);
            Join(Split(t, " "), " ") == t
            && (forall p :: p in ParseNetworkProviders(lines) <==> p in Split(t, " ") && NotBlank(p))
  {
    var t := SubstringAfter(lines[FirstLineWith(lines, ProvidersMarker).value], ProvidersMarker);
    JoinSplit(t, " ");
  }

  /** `parseActiveDefaultNetwork`: the trimmed text after the marker on the first line that has it,
      or "". */
  function ParseActiveDefaultNetwork(lines: seq<string>): (r: string)
    ensures FirstLineWith(lines, DefaultNetworkMarker).None? ==> r == ""
    ensures forall k :: FirstLineWith(lines, DefaultNetworkMarker) == Some(k) ==>
              r == Trim(SubstringAfter(lines[k], DefaultNetworkMarker))
  {
    match FirstLineWith(lines, DefaultNetworkMarker)
    case None => ""
    case Some(k) => Trim(SubstringAfter(lines[k], DefaultNetworkMarker))
  }

  /** Only the first line with each marker counts: lines added after it change neither value. */
  lemma FirstMarkerLineWins(lines: seq<string>, more: seq<string>)
    ensures FirstLineWith(lines, ProvidersMarker).Some? ==>
              ParseNetworkProviders(lines + more) == ParseNetworkProviders(lines)
    ensures FirstLineWith(lines, DefaultNetworkMarker).Some? ==>
              ParseActiveDefaultNetwork(lines + more) == ParseActiveDefaultNetwork(lines)
  {
    if FirstLineWith(lines, ProvidersMarker).Some? {
      FirstLineWithIgnoresLater(lines, more, ProvidersMarker);
    }
    if FirstLineWith(lines, DefaultNetworkMarker).Some? {
      FirstLineWithIgnoresLater(lines, more, DefaultNetworkMarker);
    }
  }

  // ----- One network record -----

  const NetworkIdPattern: Pattern := [Lit("network{"), Group(1, [Plus(Digit)]), Lit("}")]
  const HandlePattern: Pattern := [Lit("handle{"), Group(1, [Plus(Not(Chars("}")))]), Lit("}")]
  const ScorePattern: Pattern := [Lit("Score("), Group(1, [Plus(Not(Chars(")")))]), Lit(")")]
  const SsidPattern: Pattern := [Lit("SSID: \""), Group(1, [Plus(Not(Chars("\"")))]), Lit("\"")]

  /** `key \[([^\]]+)\]`. */
  function BracketListPattern(key: string): Pattern
  {
    [Lit(key + " ["), Group(1, [Plus(Not(Chars("]")))]), Lit("]")]
  }

  /** `extractListFromPattern`: the capture split on commas, each piece trimmed, blanks dropped;
      no match gives no items. */
  function ExtractListFromPattern(text: string, pat: Pattern): (items: seq<string>)
    ensures FindGroup(pat, text, 1).None? ==> items == []
    ensures FindGroup(pat, text, 1).Some? ==>
              forall x :: x in items <==> NotBlank(x) && exists p :: p in Split(FindGroup(pat, text, 1).value, ",") && x == Trim(p)
  {
    match FindGroup(pat, text, 1)
    case None => []
    case Some(g) =>
      var pieces := Split(g, ",");
      var trimmed := seq(|pieces|, k requires 0 <= k < |pieces| => Trim(pieces[k]));
      assert forall x :: x in trimmed <==> exists p :: p in pieces && x == Trim(p) by {
        forall x | x in trimmed ensures exists p :: p in pieces && x == Trim(p) {
          var k :| 0 <= k < |trimmed| && trimmed[k] == x;
          assert pieces[k] in pieces;
        }
        forall x | exists p :: p in pieces && x == Trim(p) ensures x in trimmed {
          var p :| p in pieces && x == Trim(p);
          var k :| 0 <= k < |pieces| && pieces[k] == p;
          assert trimmed[k] == x;
        }
      }
      Filter(trimmed, NotBlank)
  }

  /** `WIFI` wins over `CELLULAR`; a record naming neither is `UNKNOWN`. */
  function NetworkType(info: string): (t: string)
    ensures t == "WIFI" <==> Contains(info, "WIFI")
    ensures t == "CELLULAR" <==> !Contains(info, "WIFI") && Contains(info, "CELLULAR")
    ensures t == "UNKNOWN" <==> !Contains(info, "WIFI") && !Contains(info, "CELLULAR")
  {
    if Contains(info, "WIFI") then "WIFI" else if Contains(info, "CELLULAR") then "CELLULAR" else "UNKNOWN"
  }

  /** `CONNECTED` is checked before `CONNECTING`. */
  function ConnectionState(info: string): (c: string)
    ensures c == "CONNECTED" <==> Contains(info, "CONNECTED")
    ensures c == "CONNECTING" <==> !Contains(info, "CONNECTED") && Contains(info, "CONNECTING")
    ensures c == "UNKNOWN" <==> !Contains(info, "CONNECTED") && !Contains(info, "CONNECTING")
  {
    if Contains(info, "CONNECTED") then "CONNECTED" else if Contains(info, "CONNECTING") then "CONNECTING" else "UNKNOWN"
  }

  /** Because the test is a substring test, a record that says `DISCONNECTED` is reported as
      `CONNECTED`. */
  lemma DisconnectedReadsAsConnected()
    ensures ConnectionState("state: DISCONNECTED") == "CONNECTED"
  {
    assert OccursAt("state: DISCONNECTED", "CONNECTED", 10);
    ContainsIff("state: DISCONNECTED", "CONNECTED");
  }

  /** `Regex(...).find(info)?.groupValues?.get(1)?.trim() ?: ""`. */
  function TrimmedOr(v: Option<string>): string
  {
    match v case Some(g) => Trim(g) case None => ""
  }

  /** `parseNetworkAgentInfo` on the text of one record. The source returns null only when an
      exception is thrown, and none of its steps can throw, so the result is always a record. */
  function ParseNetworkAgentInfo(info: string): NetworkAgentInfo
  {
    var transport := Contains(info, "TransportInfo:");
    NetworkAgentInfo(
      networkId := StringOr(FindGroup(NetworkIdPattern, info, 1), ""),
      handle := StringOr(FindGroup(HandlePattern, info, 1), ""),
      networkType := NetworkType(info),
      connectionState := ConnectionState(info),
      score := StringOr(FindGroup(ScorePattern, info, 1), ""),
      isValidated := Contains(info, "VALIDATED"),
      isExplicitlySelected := Contains(info, "explicitlySelected"),
      interfaceName := StringOr(FindGroup(KeyedRun("InterfaceName: ", NonSpace), info, 1), ""),
      linkAddresses := ExtractListFromPattern(info, BracketListPattern("LinkAddresses:")),
      dnsAddresses := ExtractListFromPattern(info, BracketListPattern("DnsAddresses:")),
      domains := StringOr(FindGroup(KeyedRun("Domains: ", NonSpace), info, 1), ""),
      serverAddress := StringOr(FindGroup(KeyedRun("ServerAddress: ", NonSpace), info, 1), ""),
      routes := ExtractListFromPattern(info, BracketListPattern("Routes:")),
      capabilities := StringOr(FindGroup(KeyedRun("Capabilities: ", NonSpace), info, 1), ""),
      transportInfo := Trim(SubstringBefore(SubstringAfterOr(info, "TransportInfo:", ""), " SignalStrength:")),
      signalStrength := if transport then TrimmedOr(FindGroup(KeyedRun("RSSI: ", Not(Chars(","))), info, 1)) else "",
      ssid := if transport then StringOr(FindGroup(SsidPattern, info, 1), "") else "",
      bssid := if transport then TrimmedOr(FindGroup(KeyedRun("BSSID: ", Not(Chars(","))), info, 1)) else "",
      linkSpeed := if transport then TrimmedOr(FindGroup(KeyedRun("Link speed: ", Not(Chars(","))), info, 1)) else "",
      frequency := if transport then TrimmedOr(FindGroup(KeyedRun("Frequency: ", Not(Chars(","))), info, 1)) else "")
  }

  /** The flags and the type and state of a record come from its substring tests. */
  lemma RecordFlags(info: string)
    ensures var n := ParseNetworkAgentInfo(info);
            n.networkType == NetworkType(info) && n.connectionState == ConnectionState(info)
            && n.isValidated == Contains(info, "VALIDATED") && n.isExplicitlySelected == Contains(info, "explicitlySelected")
  {
  }

  /** The Wi-Fi fields are empty without `TransportInfo:`. */
  lemma WifiFieldsNeedTransportInfo(info: string)
    requires !Contains(info, "TransportInfo:")
    ensures var n := ParseNetworkAgentInfo(info);
            n.ssid == "" && n.bssid == "" && n.linkSpeed == "" && n.frequency == "" && n.signalStrength == ""
  {
  }

  /** No address, DNS server or route list holds a blank entry. */
  lemma RecordListsNotBlank(info: string)
    ensures var n := ParseNetworkAgentInfo(info);
            forall x :: x in n.linkAddresses + n.dnsAddresses + n.routes ==> NotBlank(x)
  {
  }

  /** A record without `TransportInfo:` has no transport text either. */
  lemma TransportInfoNeedsMarker(info: string)
    requires !Contains(info, "TransportInfo:")
    ensures ParseNetworkAgentInfo(info).transportInfo == ""
  {
    assert SubstringAfterOr(info, "TransportInfo:", "") == "";
    assert IndexOf("", " SignalStrength:").None?;
  }

  // ----- Current networks -----

  /** The scan of `parseCurrentNetworks`: the texts of the records flushed so far, the section flag
      and the record being collected. */
  datatype NetScan = NetScan(texts: seq<string>, inSection: bool, info: string)

  /** Flushes the record being collected, if any. */
  function FlushRecord(st: NetScan): (r: NetScan)
    ensures r.inSection == st.inSection && r.info == ""
  {
    if |st.info| > 0 then st.(texts := st.texts + [st.info], info := "") else st
  }

  /** A header line flushes the current record and starts a new one; another line is appended,
      trimmed, after one space, when a record is open. */
  function CollectLine(st: NetScan, line: string): (r: NetScan)
    ensures r.inSection == st.inSection
  {
    if Contains(line, "NetworkAgentInfo") then FlushRecord(st).(info := line)
    else if |st.info| > 0 then st.(info := st.info + " " + Trim(line))
    else st
  }

  function ScanNetworks(lines: seq<string>, i: nat, st: NetScan): NetScan
    decreases |lines| - i
  {
    if i >= |lines| then st
    else
      var line := lines[i];
      if Contains(line, "Current Networks:") then ScanNetworks(lines, i + 1, st.(inSection := true))
      else if !st.inSection then ScanNetworks(lines, i + 1, st)
      else
        var st1 := if Trim(line) == "" || Contains(line, "Requests:") then FlushRecord(st) else st;
        if Contains(line, "Requests:") then st1
        else ScanNetworks(lines, i + 1, CollectLine(st1, line))
  }

  const NoNetScan := NetScan([], false, "")

  /** The texts of the current-network records. */
  function NetworkTexts(lines: seq<string>): seq<string>
  {
    FlushRecord(ScanNetworks(lines, 0, NoNetScan)).texts
  }

  /** Every text parsed by `parse`, in order. */
  function ParseAll<T>(parse: string -> T, texts: seq<string>): (r: seq<T>)
    ensures |r| == |texts|
  {
    if |texts| == 0 then [] else ParseAll(parse, texts[..|texts| - 1]) + [parse(texts[|texts| - 1])]
  }

  /** The record at each position is the parse of the text at that position. */
  lemma {:induction false} ParseAllSpec<T>(parse: string -> T, texts: seq<string>)
    ensures forall k :: 0 <= k < |texts| ==> ParseAll(parse, texts)[k] == parse(texts[k])
  {
    if |texts| > 0 {
      ParseAllSpec(parse, texts[..|texts| - 1]);
    }
  }

  function CurrentNetworksOf(lines: seq<string>): seq<NetworkAgentInfo>
  {
    ParseAll(ParseNetworkAgentInfo, NetworkTexts(lines))
  }

  /** The flush of the source: the collected record, if any, is parsed and added. It is stated for any
      record parser, since it only appends what the parser returns. */
  method Flush<T>(parse: string -> T, networks: seq<T>, ghost texts: seq<string>, info: string)
    returns (networks': seq<T>, ghost texts': seq<string>)
    requires networks == ParseAll(parse, texts)
    ensures networks' == ParseAll(parse, texts')
    ensures texts' == if |info| > 0 then texts + [info] else texts
  {
    networks', texts' := networks, texts;
    if |info| > 0 {
      networks' := networks + [parse(info)];
      texts' := texts + [info];
      assert texts'[..|texts|] == texts;
    }
  }

  /** The body of the scan for a line inside the section that is not a `Requests:` line. */
  method CollectNetworkLine<T>(parse: string -> T, networks: seq<T>, ghost texts: seq<string>, info: string,
                               line: string)
    returns (networks': seq<T>, ghost texts': seq<string>, info': string)
    requires networks == ParseAll(parse, texts)
    ensures networks' == ParseAll(parse, texts')
    ensures var st := NetScan(texts, true, info);
            NetScan(texts', true, info') == CollectLine(if Trim(line) == "" then FlushRecord(st) else st, line)
  {
    networks', texts', info' := networks, texts, info;
    if Trim(line) == "" {
      networks', texts' := Flush(parse, networks', texts', info');
      info' := "";
    }
    if Contains(line, "NetworkAgentInfo") {
      networks', texts' := Flush(parse, networks', texts', info');
      info' := line;
    } else if |info'| > 0 {
      info' := info' + " " + Trim(line);
    }
  }

  /** `parseCurrentNetworks`. */
  method ParseCurrentNetworks(lines: seq<string>) returns (networks: seq<NetworkAgentInfo>)
    ensures networks == CurrentNetworksOf(lines)
  {
    networks := [];
    var inCurrentNetworks := false;
    var info := "";
    ghost var texts: seq<string> := [];
    var i := 0;
    while i < |lines|
      invariant i <= |lines|
      invariant networks == ParseAll(ParseNetworkAgentInfo, texts)
      invariant ScanNetworks(lines, i, NetScan(texts, inCurrentNetworks, info)) == ScanNetworks(lines, 0, NoNetScan)
      decreases |lines| - i
    {
      var line := lines[i];
      if Contains(line, "Current Networks:") {
        inCurrentNetworks := true;
      } else if inCurrentNetworks {
        if Contains(line, "Requests:") {
          networks, texts := Flush(ParseNetworkAgentInfo, networks, texts, info);
          info := "";
          break;
        }
        networks, texts, info := CollectNetworkLine(ParseNetworkAgentInfo, networks, texts, info, line);
      }
      i := i + 1;
    }
    networks, texts := Flush(ParseNetworkAgentInfo, networks, texts, info);
  }

  /** Every record text holds a `NetworkAgentInfo` header: text before the first header is never
      collected. */
  predicate HeaderTexts(st: NetScan)
  {
    (st.info == "" || Contains(st.info, "NetworkAgentInfo"))
    && forall t :: t in st.texts ==> Contains(t, "NetworkAgentInfo")
  }

  lemma {:induction false} ScanKeepsHeaderTexts(lines: seq<string>, i: nat, st: NetScan)
    requires HeaderTexts(st)
    ensures HeaderTexts(ScanNetworks(lines, i, st))
    decreases |lines| - i
  {
    if i < |lines| {
      var line := lines[i];
      if Contains(line, "Current Networks:") {
        ScanKeepsHeaderTexts(lines, i + 1, st.(inSection := true));
      } else if !st.inSection {
        ScanKeepsHeaderTexts(lines, i + 1, st);
      } else {
        var st1 := if Trim(line) == "" || Contains(line, "Requests:") then FlushRecord(st) else st;
        if !Contains(line, "Requests:") {
          if !Contains(line, "NetworkAgentInfo") && |st1.info| > 0 {
            ContainsExtend(st1.info, " " + Trim(line), "NetworkAgentInfo");
            assert st1.info + " " + Trim(line) == st1.info + (" " + Trim(line));
          }
          ScanKeepsHeaderTexts(lines, i + 1, CollectLine(st1, line));
        }
      }
    }
  }

  /** Every current network comes from a text that holds a `NetworkAgentInfo` header. */
  lemma NetworkTextsHaveHeaders(lines: seq<string>)
    ensures forall t :: t in NetworkTexts(lines) ==> Contains(t, "NetworkAgentInfo")
  {
    ScanKeepsHeaderTexts(lines, 0, NoNetScan);
  }

  /** Inside the section, a `Requests:` line ends the scan: nothing after it is read. */
  lemma {:induction false} NetworksStopAtRequests(lines: seq<string>, i: nat, st: NetScan, k: nat)
    requires i <= k < |lines| && st.inSection
    requires Contains(lines[k], "Requests:") && !Contains(lines[k], "Current Networks:")
    ensures ScanNetworks(lines, i, st) == ScanNetworks(lines[..k + 1], i, st)
    decreases k - i
  {
    assert lines[..k + 1][i] == lines[i];
    var line := lines[i];
    if i < k {
      if Contains(line, "Current Networks:") {
        NetworksStopAtRequests(lines, i + 1, st.(inSection := true), k);
      } else if !Contains(line, "Requests:") {
        var st1 := if Trim(line) == "" then FlushRecord(st) else st;
        NetworksStopAtRequests(lines, i + 1, CollectLine(st1, line), k);
      }
    }
  }

  /** Before the `Current Networks:` line nothing is collected, whatever the lines say. */
  lemma {:induction false} NothingBeforeSection(lines: seq<string>, i: nat, k: nat)
    requires i <= k <= |lines|
    requires forall q :: i <= q < k ==> !Contains(lines[q], "Current Networks:")
    ensures ScanNetworks(lines, i, NoNetScan) == ScanNetworks(lines, k, NoNetScan)
    decreases k - i
  {
    if i < k {
      NothingBeforeSection(lines, i + 1, k);
    }
  }

  // ----- Request statistics -----

  /** The non-blank space-separated parts after `Requests:`. */
  function StatsParts(line: string): seq<string>
  {
    Filter(Split(SubstringAfter(line, "Requests:"), " "), NotBlank)
  }

  /** `part.substringAfter(":").toIntOrNull() ?: 0`. */
  function CountOf(part: string): int
  {
    IntOr(Some(SubstringAfter(part, ":")), 0)
  }

  /** The four counters of `NetworkRequestStats`. */
  datatype Counter = Request | Listen | BackgroundRequest | Total

  /** What one part says: the counter it sets and the value it sets it to, or nothing. */
  datatype StatsPart = Counted(counter: Counter, count: int) | Uncounted

  /** The alternative of the `when` over the parts that `part` takes: its prefix names the counter. */
  function StatsPartOf(part: string): StatsPart
  {
    if StartsWith(part, "REQUEST:") then Counted(Request, CountOf(part))
    else if StartsWith(part, "LISTEN:") then Counted(Listen, CountOf(part))
    else if StartsWith(part, "BACKGROUND_REQUEST:") then Counted(BackgroundRequest, CountOf(part))
    else if StartsWith(part, "total:") then Counted(Total, CountOf(part))
    else Uncounted
  }

  /** The parts of a statistics line, each read as the `when` reads it. */
  function StatsPartsOf(parts: seq<string>): (r: seq<StatsPart>)
    ensures |r| == |parts|
    ensures forall k :: 0 <= k < |parts| ==> r[k] == StatsPartOf(parts[k])
  {
    seq(|parts|, k requires 0 <= k < |parts| => StatsPartOf(parts[k]))
  }

  function CounterValue(st: NetworkRequestStats, c: Counter): int
  {
    match c
    case Request => st.requestCount
    case Listen => st.listenCount
    case BackgroundRequest => st.backgroundRequestCount
    case Total => st.totalCount
  }

  function StatsStep(st: NetworkRequestStats, sp: StatsPart): NetworkRequestStats
  {
    match sp
    case Uncounted => st
    case Counted(Request, n) => st.(requestCount := n)
    case Counted(Listen, n) => st.(listenCount := n)
    case Counted(BackgroundRequest, n) => st.(backgroundRequestCount := n)
    case Counted(Total, n) => st.(totalCount := n)
  }

  /** The counters after the first `n` parts. */
  function StatsOf(sps: seq<StatsPart>, n: nat): NetworkRequestStats
    requires n <= |sps|
  {
    if n == 0 then NoRequestStats else StatsStep(StatsOf(sps, n - 1), sps[n - 1])
  }

  function RequestStatsOf(lines: seq<string>): NetworkRequestStats
  {
    match FirstLineWith(lines, "Requests: REQUEST:")
    case None => NoRequestStats
    case Some(k) => StatsOf(StatsPartsOf(StatsParts(lines[k])), |StatsParts(lines[k])|)
  }

  /** The inner loop of `parseNetworkRequestStats`: the counters the parts of one line set. */
  method ReadRequestCounts(parts: seq<string>) returns (stats: NetworkRequestStats)
    ensures stats == StatsOf(StatsPartsOf(parts), |parts|)
  {
    ghost var sps := StatsPartsOf(parts);
    stats := NoRequestStats;
    var j := 0;
    while j < |parts|
      invariant j <= |parts|
      invariant stats == StatsOf(sps, j)
    {
      var part := parts[j];
      assert sps[j] == StatsPartOf(part);
      if StartsWith(part, "REQUEST:") {
        stats := stats.(requestCount := CountOf(part));
      } else if StartsWith(part, "LISTEN:") {
        stats := stats.(listenCount := CountOf(part));
      } else if StartsWith(part, "BACKGROUND_REQUEST:") {
        stats := stats.(backgroundRequestCount := CountOf(part));
      } else if StartsWith(part, "total:") {
        stats := stats.(totalCount := CountOf(part));
      }
      j := j + 1;
    }
  }

  /** `parseNetworkRequestStats`. */
  method ParseNetworkRequestStats(lines: seq<string>) returns (stats: NetworkRequestStats)
    ensures stats == RequestStatsOf(lines)
  {
    var i := 0;
    while i < |lines|
      invariant i <= |lines|
      invariant forall k :: 0 <= k < i ==> !Contains(lines[k], "Requests: REQUEST:")
    {
      var line := lines[i];
      if Contains(line, "Requests: REQUEST:") {
        stats := ReadRequestCounts(StatsParts(line));
        return;
      }
      i := i + 1;
    }
    stats := NoRequestStats;
  }

  /** A part sets a counter exactly when it starts with that counter's prefix and no earlier
      alternative of the `when` claims it, and the value is the number after its colon. */
  lemma StatsPartOfKinds(part: string)
    ensures StatsPartOf(part).Counted? ==> StatsPartOf(part).count == CountOf(part)
    ensures StatsPartOf(part) == Counted(Request, CountOf(part)) <==> StartsWith(part, "REQUEST:")
    ensures StatsPartOf(part).Counted? && StatsPartOf(part).counter == Listen
            <==> !StartsWith(part, "REQUEST:") && StartsWith(part, "LISTEN:")
    ensures StatsPartOf(part).Counted? && StatsPartOf(part).counter == BackgroundRequest
            <==> !StartsWith(part, "REQUEST:") && !StartsWith(part, "LISTEN:") && StartsWith(part, "BACKGROUND_REQUEST:")
    ensures StatsPartOf(part).Counted? && StatsPartOf(part).counter == Total
            <==> !StartsWith(part, "REQUEST:") && !StartsWith(part, "LISTEN:") && !StartsWith(part, "BACKGROUND_REQUEST:")
                 && StartsWith(part, "total:")
  {
  }

  /** Each counter is 0 unless a part sets it, and a later part overwrites an earlier one: its value is
      that of the last part that sets it. */
  lemma {:induction false} StatsFromLastPart(sps: seq<StatsPart>, n: nat, c: Counter)
    requires n <= |sps|
    ensures CounterValue(StatsOf(sps, n), c)
            == match LastIndexIn(sps, 0, n, (sp: StatsPart) => sp.Counted? && sp.counter == c)
               case None => 0
               case Some(k) => sps[k].count
  {
    if n > 0 {
      StatsFromLastPart(sps, n - 1, c);
    }
  }

  /** Only the first `Requests: REQUEST:` line is read. */
  lemma FirstStatsLineWins(lines: seq<string>, more: seq<string>)
    requires FirstLineWith(lines, "Requests: REQUEST:").Some?
    ensures RequestStatsOf(lines + more) == RequestStatsOf(lines)
  {
    var k := FirstLineWith(lines, "Requests: REQUEST:").value;
    FirstLineWithIgnoresLater(lines, more, "Requests: REQUEST:");
    assert (lines + more)[k] == lines[k];
  }

  // ----- Requests grouped by package -----

  /** `NetworkRequest \[ ([^\s]+)`, `Capabilities: ([^\]]+)` and `RequestorPkg: ([^\]]+)`. */
  const RequestTypePattern: Pattern := KeyedRun("NetworkRequest [ ", NonSpace)

  const RequestIdKey := "id="
  const CapabilitiesKey := "Capabilities: "
  const TransportsKey := "Transports: "
  const RequestorUidKey := "RequestorUid: "
  const RequestorPkgKey := "RequestorPkg: "

  /** `parseNetworkRequestInfo`: every field is its pattern's capture, or "". The source returns null
      only when an exception is thrown, and none of its steps can throw. */
  function ParseNetworkRequestInfo(line: string): (r: NetworkRequestInfo)
    ensures r.id == StringOr(KeyedValue(line, RequestIdKey, Digit), "")
    ensures r.requestType == StringOr(KeyedValue(line, "NetworkRequest [ ", NonSpace), "")
    ensures r.capabilities == StringOr(KeyedValue(line, CapabilitiesKey, Not(Chars("]"))), "")
    ensures r.transports == StringOr(KeyedValue(line, TransportsKey, NonSpace), "")
    ensures r.requestorUid == StringOr(KeyedValue(line, RequestorUidKey, Digit), "")
    ensures r.requestorPkg == StringOr(KeyedValue(line, RequestorPkgKey, Not(Chars("]"))), "")
    ensures !Contains(line, RequestorPkgKey) ==> r.requestorPkg == ""
  {
    RequestInfoFields(line);
    NetworkRequestInfo(
      StringOr(FindGroup(KeyedRun(RequestIdKey, Digit), line, 1), ""),
      StringOr(FindGroup(RequestTypePattern, line, 1), ""),
      StringOr(FindGroup(KeyedRun(CapabilitiesKey, Not(Chars("]"))), line, 1), ""),
      StringOr(FindGroup(KeyedRun(TransportsKey, NonSpace), line, 1), ""),
      StringOr(FindGroup(KeyedRun(RequestorUidKey, Digit), line, 1), ""),
      StringOr(FindGroup(KeyedRun(RequestorPkgKey, Not(Chars("]"))), line, 1), ""))
  }

  /** Each pattern of a request line reads as its reference reading, and the package pattern finds
      nothing on a line without `RequestorPkg: `. */
  lemma RequestInfoFields(line: string)
    ensures FindGroup(KeyedRun(RequestIdKey, Digit), line, 1) == KeyedValue(line, RequestIdKey, Digit)
    ensures FindGroup(RequestTypePattern, line, 1) == KeyedValue(line, "NetworkRequest [ ", NonSpace)
    ensures FindGroup(KeyedRun(CapabilitiesKey, Not(Chars("]"))), line, 1) == KeyedValue(line, CapabilitiesKey, Not(Chars("]")))
    ensures FindGroup(KeyedRun(TransportsKey, NonSpace), line, 1) == KeyedValue(line, TransportsKey, NonSpace)
    ensures FindGroup(KeyedRun(RequestorUidKey, Digit), line, 1) == KeyedValue(line, RequestorUidKey, Digit)
    ensures FindGroup(KeyedRun(RequestorPkgKey, Not(Chars("]"))), line, 1) == KeyedValue(line, RequestorPkgKey, Not(Chars("]")))
    ensures !Contains(line, RequestorPkgKey) ==> KeyedValue(line, RequestorPkgKey, Not(Chars("]"))).None?
  {
    FindKeyedRun(RequestIdKey, Digit, line);
    FindKeyedRun("NetworkRequest [ ", NonSpace, line);
    FindKeyedRun(CapabilitiesKey, Not(Chars("]")), line);
    FindKeyedRun(TransportsKey, NonSpace, line);
    FindKeyedRun(RequestorUidKey, Digit, line);
    var pkgPattern := KeyedRun(RequestorPkgKey, Not(Chars("]")));
    FindKeyedRun(RequestorPkgKey, Not(Chars("]")), line);
    if !Contains(line, RequestorPkgKey) {
      assert pkgPattern == [Lit(RequestorPkgKey)] + pkgPattern[1..];
      FindWithoutLit(RequestorPkgKey, pkgPattern[1..], line);
    }
  }

  /** A request line inside the section contributes its request when its package is not blank. */
  predicate Contributes(line: string)
  {
    Contains(line, "NetworkRequest [") && NotBlank(ParseNetworkRequestInfo(line).requestorPkg)
  }

  /** The requests of the section, in order: the lines after the first `Requests: REQUEST:` line and
      before the next `Inactivity Timers:` line whose package is not blank. */
  function SectionRequests(lines: seq<string>, i: nat, inSection: bool): seq<NetworkRequestInfo>
    decreases |lines| - i
  {
    if i >= |lines| then []
    else
      var line := lines[i];
      if Contains(line, "Requests: REQUEST:") then SectionRequests(lines, i + 1, true)
      else if inSection && Contains(line, "Inactivity Timers:") then []
      else if inSection && Contributes(line) then [ParseNetworkRequestInfo(line)] + SectionRequests(lines, i + 1, inSection)
      else SectionRequests(lines, i + 1, inSection)
  }

  /** The package map of the source with its insertion order (a Kotlin `mutableMapOf` iterates in
      insertion order). */
  datatype Groups = Groups(order: seq<string>, byName: map<string, seq<NetworkRequestInfo>>)

  /** `getOrPut(packageName) { mutableListOf() }.add(requestInfo)`. */
  function AddRequest(g: Groups, r: NetworkRequestInfo): Groups
  {
    var name := r.requestorPkg;
    if name in g.byName then g.(byName := g.byName[name := g.byName[name] + [r]])
    else Groups(g.order + [name], g.byName[name := [r]])
  }

  function GroupAll(reqs: seq<NetworkRequestInfo>): Groups
  {
    if |reqs| == 0 then Groups([], map[])
    else AddRequest(GroupAll(reqs[..|reqs| - 1]), reqs[|reqs| - 1])
  }

  /** The requests of package `name`, in order. */
  function RequestsOf(reqs: seq<NetworkRequestInfo>, name: string): (r: seq<NetworkRequestInfo>)
    ensures forall x :: x in r ==> x in reqs && x.requestorPkg == name
  {
    if |reqs| == 0 then []
    else
      var last := reqs[|reqs| - 1];
      RequestsOf(reqs[..|reqs| - 1], name) + (if last.requestorPkg == name then [last] else [])
  }

  ghost predicate GroupsValid(g: Groups)
  {
    (forall i, j :: 0 <= i < j < |g.order| ==> g.order[i] != g.order[j])
    && (forall name :: name in g.byName <==> name in g.order)
  }

  /** Grouping keeps every package of the requests once, in first-seen order. */
  lemma {:induction false} GroupAllKeys(reqs: seq<NetworkRequestInfo>)
    ensures var g := GroupAll(reqs);
            GroupsValid(g) && (forall name :: name in g.byName <==> exists r :: r in reqs && r.requestorPkg == name)
  {
    if |reqs| > 0 {
      var init := reqs[..|reqs| - 1];
      GroupAllKeys(init);
      assert forall r :: r in reqs <==> r in init || r == reqs[|reqs| - 1];
    }
  }

  /** Each package holds exactly its requests, in their original order. */
  lemma {:induction false} GroupAllValues(reqs: seq<NetworkRequestInfo>)
    ensures var g := GroupAll(reqs);
            forall name :: name in g.byName ==> g.byName[name] == RequestsOf(reqs, name) && |g.byName[name]| > 0
  {
    if |reqs| > 0 {
      var init := reqs[..|reqs| - 1];
      var last := reqs[|reqs| - 1];
      GroupAllValues(init);
      GroupAllKeys(init);
      var g0 := GroupAll(init);
      var g := GroupAll(reqs);
      assert g == AddRequest(g0, last);
      forall name | name in g.byName
        ensures g.byName[name] == RequestsOf(reqs, name)
      {
        if name != last.requestorPkg && name in g0.byName {
          assert g.byName[name] == g0.byName[name];
        } else if name == last.requestorPkg && name !in g0.byName {
          RequestsOfAbsent(init, name);
        }
      }
    }
  }

  /** Grouping keeps every package once, in first-seen order, with exactly its requests in their
      original order. */
  lemma GroupAllSpec(reqs: seq<NetworkRequestInfo>)
    ensures var g := GroupAll(reqs);
            GroupsValid(g)
            && (forall name :: name in g.byName <==> exists r :: r in reqs && r.requestorPkg == name)
            && (forall name :: name in g.byName ==> g.byName[name] == RequestsOf(reqs, name) && |g.byName[name]| > 0)
  {
    GroupAllKeys(reqs);
    GroupAllValues(reqs);
  }

  /** A package none of the requests names has no requests. */
  lemma {:induction false} RequestsOfAbsent(reqs: seq<NetworkRequestInfo>, name: string)
    requires forall r :: r in reqs ==> r.requestorPkg != name
    ensures RequestsOf(reqs, name) == []
  {
    if |reqs| > 0 {
      assert reqs[|reqs| - 1] in reqs;
      RequestsOfAbsent(reqs[..|reqs| - 1], name);
    }
  }

  /** The entry for each package: its requests, with the uid of the first one. */
  function Packages(g: Groups): (ps: seq<PackageNetworkRequests>)
    requires GroupsValid(g)
    ensures |ps| == |g.order|
    ensures forall k :: 0 <= k < |ps| ==> ps[k].packageName == g.order[k]
  {
    seq(|g.order|, k requires 0 <= k < |g.order| =>
      var rs := g.byName[g.order[k]];
      PackageNetworkRequests(g.order[k], if |rs| > 0 then rs[0].requestorUid else "", rs))
  }

  predicate SortedByName(ps: seq<PackageNetworkRequests>)
  {
    forall i, j :: 0 <= i < j < |ps| ==> LexLeq(ps[i].packageName, ps[j].packageName)
  }

  /** Before the first entry whose name is not smaller. */
  function NamePosition(p: PackageNetworkRequests, s: seq<PackageNetworkRequests>): (k: nat)
    ensures k <= |s|
    ensures forall i :: 0 <= i < k ==> !LexLeq(p.packageName, s[i].packageName)
    ensures k < |s| ==> LexLeq(p.packageName, s[k].packageName)
  {
    match FirstIndexFrom(s, 0, (y: PackageNetworkRequests) => LexLeq(p.packageName, y.packageName))
    case Some(k) => k
    case None => |s|
  }

  lemma InsertByNameKeepsSorted(p: PackageNetworkRequests, s: seq<PackageNetworkRequests>)
    ensures var k := NamePosition(p, s); SortedByName(s) ==> SortedByName(s[..k] + [p] + s[k..])
  {
    if !SortedByName(s) {
      return;
    }
    var k := NamePosition(p, s);
    var r := s[..k] + [p] + s[k..];
    forall i, j | 0 <= i < j < |r|
      ensures LexLeq(r[i].packageName, r[j].packageName)
    {
      if j < k || i > k {
        var i' := if i < k then i else i - 1;
        var j' := if j < k then j else j - 1;
        assert r[i] == s[i'] && r[j] == s[j'];
      } else if i < k {
        assert r[i] == s[i];
        LexLeqTotal(p.packageName, s[i].packageName);
        if j == k {
          assert r[j] == p;
        } else {
          assert r[j] == s[j - 1];
          LexLeqTransitive(s[i].packageName, p.packageName, s[k].packageName);
          if k < j - 1 {
            LexLeqTransitive(s[i].packageName, s[k].packageName, s[j - 1].packageName);
          }
        }
      } else {
        assert r[j] == s[j - 1];
        if k < j - 1 {
          LexLeqTransitive(p.packageName, s[k].packageName, s[j - 1].packageName);
        }
      }
    }
  }

  function InsertByName(p: PackageNetworkRequests, s: seq<PackageNetworkRequests>): (r: seq<PackageNetworkRequests>)
    ensures multiset(r) == multiset(s) + multiset{p}
    ensures SortedByName(s) ==> SortedByName(r)
  {
    var k := NamePosition(p, s);
    InsertByNameKeepsSorted(p, s);
    assert s == s[..k] + s[k..];
    s[..k] + [p] + s[k..]
  }

  /** `sortedBy { it.packageName }`. */
  function SortByName(ps: seq<PackageNetworkRequests>): (r: seq<PackageNetworkRequests>)
    ensures SortedByName(r)
    ensures multiset(r) == multiset(ps)
  {
    if |ps| == 0 then []
    else
      assert ps == [ps[0]] + ps[1..];
      InsertByName(ps[0], SortByName(ps[1..]))
  }

  function RequestsByPackageOf(lines: seq<string>): seq<PackageNetworkRequests>
  {
    var g := GroupAll(SectionRequests(lines, 0, false));
    GroupAllSpec(SectionRequests(lines, 0, false));
    SortByName(Packages(g))
  }

  /** `packageRequests.getOrPut(packageName) { mutableListOf() }.add(requestInfo)`, with the map's
      insertion order kept in `order`. */
  method PutRequest(order: seq<string>, packageRequests: map<string, seq<NetworkRequestInfo>>, requestInfo: NetworkRequestInfo)
    returns (order': seq<string>, packageRequests': map<string, seq<NetworkRequestInfo>>)
    ensures Groups(order', packageRequests') == AddRequest(Groups(order, packageRequests), requestInfo)
  {
    var packageName := requestInfo.requestorPkg;
    order', packageRequests' := order, packageRequests;
    if packageName in packageRequests {
      packageRequests' := packageRequests[packageName := packageRequests[packageName] + [requestInfo]];
    } else {
      order' := order + [packageName];
      packageRequests' := packageRequests[packageName := [requestInfo]];
    }
  }

  /** `parseNetworkRequestsByPackage`. */
  method ParseNetworkRequestsByPackage(lines: seq<string>) returns (result: seq<PackageNetworkRequests>)
    ensures result == RequestsByPackageOf(lines)
  {
    var order: seq<string> := [];
    var packageRequests: map<string, seq<NetworkRequestInfo>> := map[];
    var inRequestsSection := false;
    ghost var seen: seq<NetworkRequestInfo> := [];
    var i := 0;
    while i < |lines|
      invariant i <= |lines|
      invariant Groups(order, packageRequests) == GroupAll(seen)
      invariant seen + SectionRequests(lines, i, inRequestsSection) == SectionRequests(lines, 0, false)
      decreases |lines| - i
    {
      var line := lines[i];
      if Contains(line, "Requests: REQUEST:") {
        inRequestsSection := true;
        i := i + 1;
        continue;
      }
      if inRequestsSection && Contains(line, "Inactivity Timers:") {
        break;
      }
      if inRequestsSection && Contains(line, "NetworkRequest [") {
        var requestInfo := ParseNetworkRequestInfo(line);
        var packageName := requestInfo.requestorPkg;
        if NotBlank(packageName) {
          order, packageRequests := PutRequest(order, packageRequests, requestInfo);
          assert (seen + [requestInfo])[..|seen|] == seen;
          seen := seen + [requestInfo];
        }
      }
      i := i + 1;
    }
    assert seen == SectionRequests(lines, 0, false);
    GroupAllSpec(seen);
    result := SortByName(Packages(Groups(order, packageRequests)));
  }

  /** The entries built from a valid grouping: their names are distinct and each is the name of a
      group, holding that group. */
  lemma PackagesSpec(g: Groups)
    requires GroupsValid(g)
    ensures var u := Packages(g);
            (forall i, j :: 0 <= i < j < |u| ==> u[i].packageName != u[j].packageName)
            && (forall p :: p in u ==>
                  (p.packageName in g.byName && p.requests == g.byName[p.packageName]
                   && p.uid == (if |p.requests| > 0 then p.requests[0].requestorUid else "")))
            && (forall name :: name in g.byName ==> exists p :: p in u && p.packageName == name)
  {
    var u := Packages(g);
    forall name | name in g.byName
      ensures exists p :: p in u && p.packageName == name
    {
      var k :| 0 <= k < |g.order| && g.order[k] == name;
      assert u[k] in u;
    }
  }

  /** The entries are in increasing name order, each name once. */
  lemma RequestsByPackageSorted(lines: seq<string>)
    ensures var ps := RequestsByPackageOf(lines);
            SortedByName(ps) && forall i, j :: 0 <= i < j < |ps| ==> ps[i].packageName != ps[j].packageName
  {
    var reqs := SectionRequests(lines, 0, false);
    GroupAllSpec(reqs);
    var u := Packages(GroupAll(reqs));
    PackagesSpec(GroupAll(reqs));
    PermutationKeepsNamesDistinct(RequestsByPackageOf(lines), u);
  }

  /** Each entry holds exactly its package's requests in their original order, takes the uid of the
      first, and has a package that is not blank. */
  lemma RequestsByPackageEntries(lines: seq<string>)
    ensures var reqs := SectionRequests(lines, 0, false);
            forall p :: p in RequestsByPackageOf(lines) ==>
              p.requests == RequestsOf(reqs, p.packageName) && |p.requests| > 0
              && p.uid == p.requests[0].requestorUid && NotBlank(p.packageName)
  {
    var reqs := SectionRequests(lines, 0, false);
    SectionRequestsNotBlank(lines, 0, false);
    GroupAllSpec(reqs);
    var u := Packages(GroupAll(reqs));
    PackagesSpec(GroupAll(reqs));
    SortByNameSameEntries(u);
  }

  /** Every request of the section is under its package. */
  lemma RequestsByPackageCovers(lines: seq<string>)
    ensures var reqs := SectionRequests(lines, 0, false);
            forall r :: r in reqs ==> exists p :: p in RequestsByPackageOf(lines) && p.packageName == r.requestorPkg
  {
    var reqs := SectionRequests(lines, 0, false);
    SectionRequestsNotBlank(lines, 0, false);
    GroupAllSpec(reqs);
    var g := GroupAll(reqs);
    var u := Packages(g);
    PackagesSpec(g);
    SortByNameSameEntries(u);
    forall r | r in reqs
      ensures exists p :: p in RequestsByPackageOf(lines) && p.packageName == r.requestorPkg
    {
      assert r.requestorPkg in g.byName;
      var p :| p in u && p.packageName == r.requestorPkg;
      assert p in RequestsByPackageOf(lines);
    }
  }

  lemma SortByNameSameEntries(u: seq<PackageNetworkRequests>)
    ensures forall p :: p in SortByName(u) <==> p in u
  {
    var ps := SortByName(u);
    assert forall p :: p in ps <==> p in multiset(ps);
    assert forall p :: p in u <==> p in multiset(u);
  }

  /** An entry of a list whose names are distinct occurs once. */
  lemma OnlyOnce(ps: seq<PackageNetworkRequests>, a: nat)
    requires a < |ps| && forall i, j :: 0 <= i < j < |ps| ==> ps[i].packageName != ps[j].packageName
    ensures multiset(ps)[ps[a]] == 1
  {
    assert ps == ps[..a] + [ps[a]] + ps[a + 1..];
    assert forall i :: 0 <= i < a ==> ps[..a][i] != ps[a];
  }

  /** Two entries of a permutation of a list with distinct names never share a name. */
  lemma PermutationKeepsNamesDistinct(ps: seq<PackageNetworkRequests>, u: seq<PackageNetworkRequests>)
    requires multiset(ps) == multiset(u)
    requires forall i, j :: 0 <= i < j < |u| ==> u[i].packageName != u[j].packageName
    ensures forall i, j :: 0 <= i < j < |ps| ==> ps[i].packageName != ps[j].packageName
  {
    forall i, j | 0 <= i < j < |ps|
      ensures ps[i].packageName != ps[j].packageName
    {
      if ps[i].packageName == ps[j].packageName {
        assert ps[i] in multiset(u) && ps[j] in multiset(u);
        var a :| 0 <= a < |u| && u[a] == ps[i];
        var b :| 0 <= b < |u| && u[b] == ps[j];
        assert a == b;
        assert ps == ps[..j] + [ps[j]] + ps[j + 1..];
        assert ps[..j][i] == ps[i];
        assert multiset(ps)[ps[i]] >= 2;
        OnlyOnce(u, a);
      }
    }
  }

  lemma {:induction false} SectionRequestsNotBlank(lines: seq<string>, i: nat, inSection: bool)
    ensures forall r :: r in SectionRequests(lines, i, inSection) ==> NotBlank(r.requestorPkg)
    decreases |lines| - i
  {
    if i < |lines| {
      var line := lines[i];
      if Contains(line, "Requests: REQUEST:") {
        SectionRequestsNotBlank(lines, i + 1, true);
      } else if !(inSection && Contains(line, "Inactivity Timers:")) {
        SectionRequestsNotBlank(lines, i + 1, inSection);
      }
    }
  }

  // ----- Keepalive configuration -----

  /** `mapNotNull { it.trim().toIntOrNull() }`. */
  function IntsOf(pieces: seq<string>): (ns: seq<int>)
    ensures |ns| <= |pieces|
  {
    if |pieces| == 0 then []
    else
      var rest := IntsOf(pieces[..|pieces| - 1]);
      match ToIntOrNull(Trim(pieces[|pieces| - 1]))
      case Some(n) => rest + [n]
      case None => rest
  }

  /** Every number kept fits in 32 bits, and none is dropped when every piece is a number. */
  lemma {:induction false} IntsOfSpec(pieces: seq<string>)
    ensures forall n :: n in IntsOf(pieces) ==> INT_MIN <= n <= INT_MAX
    ensures (forall p :: p in pieces ==> ToIntOrNull(Trim(p)).Some?) ==> |IntsOf(pieces)| == |pieces|
  {
    if |pieces| > 0 {
      IntsOfSpec(pieces[..|pieces| - 1]);
      assert forall p :: p in pieces[..|pieces| - 1] ==> p in pieces;
    }
  }


  /** The numbers between `[` and `]`, separated by commas; pieces that are not numbers are skipped. */
  function SupportedOf(line: string): seq<int>
  {
    IntsOf(Split(SubstringBefore(SubstringAfter(line, "["), "]"), ","))
  }

  /** `substringAfter(":").trim().toIntOrNull() ?: 0`. */
  function ValueAfterColon(line: string): int
  {
    IntOr(Some(Trim(SubstringAfter(line, ":"))), 0)
  }

  /** What one line says about the configuration: the alternative of the `when` it takes, with the
      value it reads, or nothing. */
  datatype KeepaliveLine = Supported(values: seq<int>) | Reserved(count: int) | Allowed(count: int) | Unrelated

  function KeepaliveLineOf(line: string): KeepaliveLine
  {
    if Contains(line, "Supported Socket keepalives:") then Supported(SupportedOf(line))
    else if Contains(line, "Reserved Privileged keepalives:") then Reserved(ValueAfterColon(line))
    else if Contains(line, "Allowed Unprivileged keepalives per uid:") then Allowed(ValueAfterColon(line))
    else Unrelated
  }

  /** The lines, each read as the `when` reads it. */
  function KeepaliveLinesOf(lines: seq<string>): (r: seq<KeepaliveLine>)
    ensures |r| == |lines|
  {
    seq(|lines|, k requires 0 <= k < |lines| => KeepaliveLineOf(lines[k]))
  }

  function KeepaliveStep(c: SocketKeepaliveConfig, kl: KeepaliveLine): SocketKeepaliveConfig
  {
    match kl
    case Supported(v) => c.(supportedKeepalives := v)
    case Reserved(n) => c.(reservedPrivileged := n)
    case Allowed(n) => c.(allowedUnprivilegedPerUid := n)
    case Unrelated => c
  }

  /** The configuration after the first `n` lines. */
  function KeepaliveOf(kls: seq<KeepaliveLine>, n: nat): SocketKeepaliveConfig
    requires n <= |kls|
  {
    if n == 0 then NoKeepaliveConfig else KeepaliveStep(KeepaliveOf(kls, n - 1), kls[n - 1])
  }

  /** One turn of the loop of `parseSocketKeepaliveConfig`: the `when` over one line. */
  method ReadKeepaliveLine(line: string, supported: seq<int>, reserved: int, allowed: int)
    returns (supported': seq<int>, reserved': int, allowed': int)
    ensures SocketKeepaliveConfig(supported', reserved', allowed')
            == KeepaliveStep(SocketKeepaliveConfig(supported, reserved, allowed), KeepaliveLineOf(line))
  {
    supported', reserved', allowed' := supported, reserved, allowed;
    if Contains(line, "Supported Socket keepalives:") {
      supported' := SupportedOf(line);
    } else if Contains(line, "Reserved Privileged keepalives:") {
      reserved' := ValueAfterColon(line);
    } else if Contains(line, "Allowed Unprivileged keepalives per uid:") {
      allowed' := ValueAfterColon(line);
    }
  }

  /** `parseSocketKeepaliveConfig`. */
  method ParseSocketKeepaliveConfig(lines: seq<string>) returns (config: SocketKeepaliveConfig)
    ensures config == KeepaliveOf(KeepaliveLinesOf(lines), |lines|)
  {
    ghost var kls := KeepaliveLinesOf(lines);
    var supportedKeepalives: seq<int> := [];
    var reservedPrivileged := 0;
    var allowedUnprivilegedPerUid := 0;
    for i := 0 to |lines|
      invariant SocketKeepaliveConfig(supportedKeepalives, reservedPrivileged, allowedUnprivilegedPerUid) == KeepaliveOf(kls, i)
    {
      supportedKeepalives, reservedPrivileged, allowedUnprivilegedPerUid :=
        ReadKeepaliveLine(lines[i], supportedKeepalives, reservedPrivileged, allowedUnprivilegedPerUid);
    }
    config := SocketKeepaliveConfig(supportedKeepalives, reservedPrivileged, allowedUnprivilegedPerUid);
  }

  /** A line sets the supported list when it has its marker, and a count only when no earlier
      alternative of the `when` claims the line. */
  lemma KeepaliveLineKinds(line: string)
    ensures KeepaliveLineOf(line).Supported? <==> Contains(line, "Supported Socket keepalives:")
    ensures KeepaliveLineOf(line).Supported? ==> KeepaliveLineOf(line).values == SupportedOf(line)
    ensures KeepaliveLineOf(line).Reserved?
            <==> !Contains(line, "Supported Socket keepalives:") && Contains(line, "Reserved Privileged keepalives:")
    ensures KeepaliveLineOf(line).Allowed?
            <==> !Contains(line, "Supported Socket keepalives:") && !Contains(line, "Reserved Privileged keepalives:")
                 && Contains(line, "Allowed Unprivileged keepalives per uid:")
    ensures KeepaliveLineOf(line).Reserved? || KeepaliveLineOf(line).Allowed? ==> KeepaliveLineOf(line).count == ValueAfterColon(line)
  {
  }

  /** Later lines overwrite earlier ones: the supported list comes from the last line that sets it,
      and is empty without one. */
  lemma {:induction false} SupportedFromLastLine(kls: seq<KeepaliveLine>, n: nat)
    requires n <= |kls|
    ensures KeepaliveOf(kls, n).supportedKeepalives
            == match LastIndexIn(kls, 0, n, (kl: KeepaliveLine) => kl.Supported?) case None => [] case Some(k) => kls[k].values
  {
    if n > 0 {
      SupportedFromLastLine(kls, n - 1);
    }
  }

  /** The same for the reserved privileged count, 0 without a line. */
  lemma {:induction false} ReservedFromLastLine(kls: seq<KeepaliveLine>, n: nat)
    requires n <= |kls|
    ensures KeepaliveOf(kls, n).reservedPrivileged
            == match LastIndexIn(kls, 0, n, (kl: KeepaliveLine) => kl.Reserved?) case None => 0 case Some(k) => kls[k].count
  {
    if n > 0 {
      ReservedFromLastLine(kls, n - 1);
    }
  }

  /** The same for the per-uid unprivileged count, 0 without a line. */
  lemma {:induction false} AllowedFromLastLine(kls: seq<KeepaliveLine>, n: nat)
    requires n <= |kls|
    ensures KeepaliveOf(kls, n).allowedUnprivilegedPerUid
            == match LastIndexIn(kls, 0, n, (kl: KeepaliveLine) => kl.Allowed?) case None => 0 case Some(k) => kls[k].count
  {
    if n > 0 {
      AllowedFromLastLine(kls, n - 1);
    }
  }

  // ----- Network activity -----

  datatype ActivityScan = ActivityScan(isNetworkActive: bool, idleTimers: seq<IdleTimer>, inIdleTimers: bool)

  /** The idle timer a line describes, when both its `timeout=` and its `type=` digits match. */
  function TimerOf(line: string): Option<IdleTimer>
  {
    match (FindGroup(KeyedRun("timeout=", Digit), line, 1), FindGroup(KeyedRun("type=", Digit), line, 1))
    case (Some(t), Some(y)) => Some(IdleTimer(Trim(SubstringBefore(line, ":")), IntOr(Some(t), 0), IntOr(Some(y), 0)))
    case _ => None
  }

  /** What one line says about network activity: the alternative of the `if` chain it takes, with the
      value it reads, before the section flag is consulted. */
  datatype ActivityLine = ActiveLine(active: bool) | IdleTimersHeader | TimerLine(timer: Option<IdleTimer>) | OtherLine

  function ActivityLineOf(line: string): ActivityLine
  {
    if Contains(line, "mNetworkActive=") then ActiveLine(SubstringBefore(SubstringAfter(line, "mNetworkActive="), " ") == "true")
    else if Contains(line, "Idle timers:") then IdleTimersHeader
    else if Contains(line, "timeout=") && Contains(line, "type=") then TimerLine(TimerOf(line))
    else OtherLine
  }

  /** The lines, each read as the `if` chain reads it. */
  function ActivityLinesOf(lines: seq<string>): (r: seq<ActivityLine>)
    ensures |r| == |lines|
  {
    seq(|lines|, k requires 0 <= k < |lines| => ActivityLineOf(lines[k]))
  }

  /** A timer line counts only inside the `Idle timers:` section. */
  function ActivityStep(st: ActivityScan, al: ActivityLine): ActivityScan
  {
    match al
    case ActiveLine(b) => st.(isNetworkActive := b)
    case IdleTimersHeader => st.(inIdleTimers := true)
    case TimerLine(Some(t)) => if st.inIdleTimers then st.(idleTimers := st.idleTimers + [t]) else st
    case _ => st
  }

  function ActivityOf(als: seq<ActivityLine>, n: nat): ActivityScan
    requires n <= |als|
  {
    if n == 0 then ActivityScan(false, [], false) else ActivityStep(ActivityOf(als, n - 1), als[n - 1])
  }

  /** One turn of the loop of `parseNetworkActivity`. */
  method ReadActivityLine(line: string, isNetworkActive: bool, idleTimers: seq<IdleTimer>, inIdleTimersSection: bool)
    returns (isNetworkActive': bool, idleTimers': seq<IdleTimer>, inIdleTimersSection': bool)
    ensures ActivityScan(isNetworkActive', idleTimers', inIdleTimersSection')
            == ActivityStep(ActivityScan(isNetworkActive, idleTimers, inIdleTimersSection), ActivityLineOf(line))
  {
    isNetworkActive', idleTimers', inIdleTimersSection' := isNetworkActive, idleTimers, inIdleTimersSection;
    if Contains(line, "mNetworkActive=") {
      isNetworkActive' := SubstringBefore(SubstringAfter(line, "mNetworkActive="), " ") == "true";
    } else if Contains(line, "Idle timers:") {
      inIdleTimersSection' := true;
    } else if inIdleTimersSection && Contains(line, "timeout=") && Contains(line, "type=") {
      var timeoutMatch := FindGroup(KeyedRun("timeout=", Digit), line, 1);
      var typeMatch := FindGroup(KeyedRun("type=", Digit), line, 1);
      if timeoutMatch.Some? && typeMatch.Some? {
        idleTimers' := idleTimers + [IdleTimer(Trim(SubstringBefore(line, ":")), IntOr(timeoutMatch, 0), IntOr(typeMatch, 0))];
      }
    }
  }

  /** `parseNetworkActivity`. */
  method ParseNetworkActivity(lines: seq<string>) returns (activity: NetworkActivity)
    ensures activity.isNetworkActive == ActivityOf(ActivityLinesOf(lines), |lines|).isNetworkActive
    ensures activity.idleTimers == ActivityOf(ActivityLinesOf(lines), |lines|).idleTimers
  {
    ghost var als := ActivityLinesOf(lines);
    var isNetworkActive := false;
    var idleTimers: seq<IdleTimer> := [];
    var inIdleTimersSection := false;
    for i := 0 to |lines|
      invariant ActivityScan(isNetworkActive, idleTimers, inIdleTimersSection) == ActivityOf(als, i)
    {
      isNetworkActive, idleTimers, inIdleTimersSection :=
        ReadActivityLine(lines[i], isNetworkActive, idleTimers, inIdleTimersSection);
    }
    activity := NetworkActivity(isNetworkActive, idleTimers);
  }

  /** Every timer a line describes has a non-negative timeout and type, read from digits. */
  lemma TimerOfNonNegative(line: string)
    ensures TimerOf(line).Some? ==> TimerOf(line).value.timeout >= 0 && TimerOf(line).value.timerType >= 0
  {
    KeyedDigitsNonNegative("timeout=", line);
    KeyedDigitsNonNegative("type=", line);
  }

  /** A timer line carries the timer the line describes. */
  lemma TimerLineNonNegative(line: string, t: IdleTimer)
    requires ActivityLineOf(line) == TimerLine(Some(t))
    ensures t.timeout >= 0 && t.timerType >= 0
  {
    assert TimerOf(line) == Some(t);
    TimerOfNonNegative(line);
  }

  /** No timer is recorded before an `Idle timers:` line has been seen, and the timers recorded are
      those of timer lines, in order. */
  lemma {:induction false} TimersNeedSection(als: seq<ActivityLine>, n: nat)
    requires n <= |als|
    ensures var st := ActivityOf(als, n);
            ((forall k :: 0 <= k < n ==> !als[k].IdleTimersHeader?) ==> !st.inIdleTimers && st.idleTimers == [])
            && (forall t :: t in st.idleTimers ==> exists k :: 0 <= k < n && als[k] == TimerLine(Some(t)))
  {
    if n > 0 {
      TimersNeedSection(als, n - 1);
      var st := ActivityOf(als, n);
      forall t | t in st.idleTimers
        ensures exists k :: 0 <= k < n && als[k] == TimerLine(Some(t))
      {
        if t !in ActivityOf(als, n - 1).idleTimers {
          assert als[n - 1] == TimerLine(Some(t));
        }
      }
    }
  }

  /** Hence every recorded timeout and type is a non-negative number. */
  lemma RecordedTimersNonNegative(lines: seq<string>)
    ensures forall t :: t in ActivityOf(ActivityLinesOf(lines), |lines|).idleTimers ==> t.timeout >= 0 && t.timerType >= 0
  {
    var als := ActivityLinesOf(lines);
    TimersNeedSection(als, |lines|);
    forall t | t in ActivityOf(als, |lines|).idleTimers
      ensures t.timeout >= 0 && t.timerType >= 0
    {
      var k :| 0 <= k < |lines| && als[k] == TimerLine(Some(t));
      TimerLineNonNegative(lines[k], t);
    }
  }

  // ----- The whole dump -----

  function ConnectivityDumpOf(dump: string): ConnectivityDumpData
  {
    var lines := Lines(dump);
    var activity := ActivityOf(ActivityLinesOf(lines), |lines|);
    ConnectivityDumpData(
      ParseNetworkProviders(lines), ParseActiveDefaultNetwork(lines), CurrentNetworksOf(lines),
      RequestStatsOf(lines), RequestsByPackageOf(lines), KeepaliveOf(KeepaliveLinesOf(lines), |lines|),
      NetworkActivity(activity.isNetworkActive, activity.idleTimers))
  }

  /** `parseConnectivityDump`. */
  method ParseConnectivityDump(dump: string) returns (data: ConnectivityDumpData)
    ensures data == ConnectivityDumpOf(dump)
  {
    var lines := Lines(dump);
    var currentNetworks := ParseCurrentNetworks(lines);
    var stats := ParseNetworkRequestStats(lines);
    var byPackage := ParseNetworkRequestsByPackage(lines);
    var keepalive := ParseSocketKeepaliveConfig(lines);
    var activity := ParseNetworkActivity(lines);
    data := ConnectivityDumpData(ParseNetworkProviders(lines), ParseActiveDefaultNetwork(lines), currentNetworks,
                                 stats, byPackage, keepalive, activity);
  }
}
