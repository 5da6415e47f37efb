/** `NetStatsParser`: reads the output of `dumpsys netstats`, split on '\n', into a `NetStatsDumpData`.
    Each of its three lists is a section loop, proved equal to one fold over the lines; the fold is
    proved equal to a direct description of the section, and each record to a reading of its line. */
module NetStatsParser {
  import opened Text
  import opened Patterns
  import opened DumpDataModel
  import opened Sections

  // ----- Active interfaces -----

  const IfacePattern: Pattern := KeyedRun("iface=", NonSpace)
  const TypePattern: Pattern := KeyedRun("type=", Digit)
  /** `networkId="([^"]+)"`. */
  const QuotedNetworkIdPattern: Pattern := [Lit("networkId=\""), Group(1, [Plus(Not(Chars("\"")))]), Lit("\"")]
  const MeteredPattern: Pattern := KeyedChoice("metered=", "true", "false")
  const DefaultNetworkPattern: Pattern := KeyedChoice("defaultNetwork=", "true", "false")

  /** The `type=` code as a name: 1 is Wi-Fi, 0 is mobile, any other code or none is unknown. */
  function InterfaceType(code: Option<string>): (t: string)
    ensures t == "WIFI" <==> code == Some("1")
    ensures t == "MOBILE" <==> code == Some("0")
    ensures t == "WIFI" || t == "MOBILE" || t == "UNKNOWN"
  {
    match code
    case Some("1") => "WIFI"
    case Some("0") => "MOBILE"
    case _ => "UNKNOWN"
  }

  /** The interface an `iface=` line describes; none when no `iface=` is followed by a non-space. */
  function ParseInterface(line: string): Option<InterfaceInfo>
  {
    match FindGroup(IfacePattern, line, 1)
    case None => None
    case Some(name) =>
      Some(InterfaceInfo(
        interfaceName := name,
        interfaceType := InterfaceType(FindGroup(TypePattern, line, 1)),
        networkId := StringOr(FindGroup(QuotedNetworkIdPattern, line, 1), "Unknown"),
        metered := FindGroup(MeteredPattern, line, 1) == Some("true"),
        defaultNetwork := FindGroup(DefaultNetworkPattern, line, 1) == Some("true")))
  }

  /** What a line of the section adds: the interface of an `iface=` line. */
  function InterfaceEmit(line: string): seq<InterfaceInfo>
  {
    if Contains(line, "iface=") && ParseInterface(line).Some? then [ParseInterface(line).value] else []
  }

  function ActiveSection(): Section<InterfaceInfo>
  {
    Section((l: string) => Contains(l, "Active interfaces:"), (l: string) => Trim(l) == "", InterfaceEmit,
            (l: string) => false)
  }

  /** `parseActiveInterfaces`. */
  method ParseActiveInterfaces(lines: seq<string>) returns (interfaces: seq<InterfaceInfo>)
    ensures interfaces == SectionOf(ActiveSection(), lines, |lines|).items
  {
    ghost var sec := ActiveSection();
    interfaces := [];
    var inSection := false;
    var i := 0;
    while i < |lines|
      invariant i <= |lines|
      invariant SectionOf(sec, lines, i) == SectionScan(interfaces, inSection, false)
    {
      var line := lines[i];
      if Contains(line, "Active interfaces:") {
        inSection := true;
        i := i + 1;
        continue;
      }
      if inSection && Trim(line) == "" {
        DoneStays(sec, lines, i + 1, |lines|);
        break;
      }
      if inSection && Contains(line, "iface=") {
        var interfaceMatch := FindGroup(IfacePattern, line, 1);
        var typeMatch := FindGroup(TypePattern, line, 1);
        var networkIdMatch := FindGroup(QuotedNetworkIdPattern, line, 1);
        var meteredMatch := FindGroup(MeteredPattern, line, 1);
        var defaultNetworkMatch := FindGroup(DefaultNetworkPattern, line, 1);
        if interfaceMatch.Some? {
          interfaces := interfaces + [InterfaceInfo(interfaceMatch.value, InterfaceType(typeMatch),
                                                    StringOr(networkIdMatch, "Unknown"), meteredMatch == Some("true"),
                                                    defaultNetworkMatch == Some("true"))];
        }
      }
      i := i + 1;
    }
  }

  /** A line without `networkId="` gets the network id "Unknown". */
  lemma NetworkIdDefault(line: string)
    requires !Contains(line, "networkId=\"")
    ensures StringOr(FindGroup(QuotedNetworkIdPattern, line, 1), "Unknown") == "Unknown"
  {
    assert QuotedNetworkIdPattern == [Lit("networkId=\"")] + QuotedNetworkIdPattern[1..];
    FindWithoutLit("networkId=\"", QuotedNetworkIdPattern[1..], line);
  }

  /** An `iface=` line gives an interface exactly when some `iface=` is followed by a non-space, and
      its name is the first such run. */
  lemma InterfaceName(line: string)
    ensures ParseInterface(line).Some? <==> KeyedValue(line, "iface=", NonSpace).Some?
    ensures ParseInterface(line).Some? ==>
              var name := ParseInterface(line).value.interfaceName;
              name == KeyedValue(line, "iface=", NonSpace).value
              && |name| >= 1 && forall q :: 0 <= q < |name| ==> !IsRegexSpace(name[q])
  {
    FindKeyedRun("iface=", NonSpace, line);
  }

  /** The type follows the first `type=` digits: "1" is Wi-Fi, "0" mobile, anything else unknown;
      the network id is "Unknown" when no quoted `networkId="` is present. */
  lemma InterfaceTypeAndId(line: string)
    requires ParseInterface(line).Some?
    ensures var r := ParseInterface(line).value;
            && (r.interfaceType == "WIFI" <==> KeyedValue(line, "type=", Digit) == Some("1"))
            && (r.interfaceType == "MOBILE" <==> KeyedValue(line, "type=", Digit) == Some("0"))
            && (r.interfaceType == "UNKNOWN" <==> KeyedValue(line, "type=", Digit) !in {Some("0"), Some("1")})
            && (!Contains(line, "networkId=\"") ==> r.networkId == "Unknown")
  {
    FindKeyedRun("type=", Digit, line);
    if !Contains(line, "networkId=\"") {
      NetworkIdDefault(line);
    }
  }

  /** `metered` and `defaultNetwork` hold exactly when the first `metered=` (`defaultNetwork=`)
      followed by `true` or `false` is followed by `true`. */
  lemma InterfaceFlags(line: string)
    requires ParseInterface(line).Some?
    ensures var r := ParseInterface(line).value;
            && (r.metered <==> ChoiceFrom(line, "metered=", "true", "false", 0) == Some("true"))
            && (r.defaultNetwork <==> ChoiceFrom(line, "defaultNetwork=", "true", "false", 0) == Some("true"))
  {
    FindKeyedChoice("metered=", "true", "false", line);
    FindKeyedChoice("defaultNetwork=", "true", "false", line);
  }

  /** So `metered` is set only by a literal `metered=true`, and always by one when no `metered=false`
      is present (`defaultNetwork` is read the same way). */
  lemma InterfaceFlagsLiteral(line: string)
    requires ParseInterface(line).Some?
    ensures var r := ParseInterface(line).value;
            && (r.metered ==> Contains(line, "metered=true"))
            && (Contains(line, "metered=true") && !Contains(line, "metered=false") ==> r.metered)
  {
    InterfaceFlags(line);
    assert "metered=" + "true" == "metered=true" && "metered=" + "false" == "metered=false";
    KeyedChoiceLiteral("metered=", "true", "false", line);
  }

  lemma InterfaceEmitFrom(line: string, r: InterfaceInfo)
    requires r in InterfaceEmit(line)
    ensures Contains(line, "iface=") && ParseInterface(line) == Some(r)
  {
  }

  /** Each interface comes from an `iface=` line of the section that is not the marker line. */
  lemma ActiveInterfacesFrom(lines: seq<string>, m: nat)
    requires FirstIndexFrom(lines, 0, ActiveSection().start) == Some(m)
    ensures forall r :: r in SectionOf(ActiveSection(), lines, |lines|).items ==>
              exists k :: m < k < SectionEnd(ActiveSection(), lines, m) && Contains(lines[k], "iface=")
                          && ParseInterface(lines[k]) == Some(r)
  {
    var sec := ActiveSection();
    var e := SectionEnd(sec, lines, m);
    SectionItemsFrom(sec, lines, m);
    forall r | r in SectionOf(sec, lines, |lines|).items
      ensures exists k :: m < k < e && Contains(lines[k], "iface=") && ParseInterface(lines[k]) == Some(r)
    {
      var k :| m < k < e && !sec.start(lines[k]) && r in sec.emit(lines[k]);
      InterfaceEmitFrom(lines[k], r);
    }
  }

  // ----- Dev and Xt stats -----

  /** `lines.getOrNull(lines.indexOf(line) + 2)`: the line two after the first line equal to `line`
      (one after the start when `line` is not in `lines`, as `indexOf` gives -1), if there is one. */
  function StatsLine(lines: seq<string>, line: string): Option<string>
  {
    var at := match SeqIndexOf(lines, line) case Some(k) => k + 2 case None => 1;
    if at < |lines| then Some(lines[at]) else None
  }

  /** The stats line of line `k` is read two after the first line equal to it, which may be an
      earlier line than `k` itself. */
  lemma StatsLineOfFirst(lines: seq<string>, k: nat)
    requires k < |lines|
    ensures SeqIndexOf(lines, lines[k]).Some?
    ensures var j := SeqIndexOf(lines, lines[k]).value;
            && j <= k && lines[j] == lines[k] && (forall i :: 0 <= i < j ==> lines[i] != lines[k])
            && StatsLine(lines, lines[k]) == (if j + 2 < |lines| then Some(lines[j + 2]) else None)
  {
  }

  /** A traffic counter: `Regex("key(\\d+)")`'s digits as a `Long`, else 0. */
  function Counter(stats: string, key: string): int
  {
    LongOr(FindGroup(KeyedRun(key, Digit), stats, 1), 0)
  }

  /** A counter is 0 when no `key` is followed by a digit, and otherwise the value of the first such
      digit run when it fits a `Long` (0 when it does not); it is never negative. */
  lemma CounterSpec(stats: string, key: string)
    ensures var n := Counter(stats, key);
            var v := KeyedValue(stats, key, Digit);
            && 0 <= n <= LONG_MAX
            && (v.None? ==> n == 0)
            && (v.Some? ==> n == (if ToLongOrNull(v.value).Some? then ToLongOrNull(v.value).value else 0))
  {
    FindKeyedRun(key, Digit, stats);
    var v := KeyedValue(stats, key, Digit);
    if v.Some? {
      DigitsParseNonNegative(v.value, LONG_MIN, LONG_MAX);
    }
  }

  /** The network id and the stats line of a `networkId=` line, when its stats line has `rb=`. */
  function StatsSource(lines: seq<string>, line: string): Option<(string, string)>
  {
    if !Contains(line, "networkId=") then None
    else match StatsLine(lines, line)
      case Some(stats) =>
        if Contains(stats, "rb=") then Some((StringOr(FindGroup(QuotedNetworkIdPattern, line, 1), "Unknown"), stats))
        else None
      case None => None
  }

  function DevEmit(lines: seq<string>, line: string): seq<DeviceStats>
  {
    match StatsSource(lines, line)
    case None => []
    case Some((id, s)) => [DeviceStats(id, Counter(s, "rb="), Counter(s, "rp="), Counter(s, "tb="), Counter(s, "tp="))]
  }

  function XtEmit(lines: seq<string>, line: string): seq<XtStats>
  {
    match StatsSource(lines, line)
    case None => []
    case Some((id, s)) => [XtStats(id, Counter(s, "rb="), Counter(s, "rp="), Counter(s, "tb="), Counter(s, "tp="))]
  }

  /** The Dev section runs from `Dev stats:` up to `Xt stats:`. */
  function DevSection(lines: seq<string>): Section<DeviceStats>
  {
    Section((l: string) => Contains(l, "Dev stats:"), (l: string) => Contains(l, "Xt stats:"),
            (l: string) => DevEmit(lines, l), (l: string) => false)
  }

  /** The Xt section runs from `Xt stats:` to the end of the input. */
  function XtSection(lines: seq<string>): Section<XtStats>
  {
    Section((l: string) => Contains(l, "Xt stats:"), (l: string) => false, (l: string) => XtEmit(lines, l),
            (l: string) => false)
  }

  /** `parseDevStats`. */
  method ParseDevStats(lines: seq<string>) returns (stats: seq<DeviceStats>)
    ensures stats == SectionOf(DevSection(lines), lines, |lines|).items
  {
    ghost var sec := DevSection(lines);
    stats := [];
    var inSection := false;
    var i := 0;
    while i < |lines|
      invariant i <= |lines|
      invariant SectionOf(sec, lines, i) == SectionScan(stats, inSection, false)
    {
      var line := lines[i];
      if Contains(line, "Dev stats:") {
        inSection := true;
        i := i + 1;
        continue;
      }
      if inSection && Contains(line, "Xt stats:") {
        DoneStays(sec, lines, i + 1, |lines|);
        break;
      }
      if inSection && Contains(line, "networkId=") {
        var networkId := StringOr(FindGroup(QuotedNetworkIdPattern, line, 1), "Unknown");
        var statsLine := StatsLine(lines, line);
        if statsLine.Some? && Contains(statsLine.value, "rb=") {
          var s := statsLine.value;
          stats := stats + [DeviceStats(networkId, Counter(s, "rb="), Counter(s, "rp="), Counter(s, "tb="),
                                        Counter(s, "tp="))];
        }
      }
      i := i + 1;
    }
  }

  /** `parseXtStats`. */
  method ParseXtStats(lines: seq<string>) returns (stats: seq<XtStats>)
    ensures stats == SectionOf(XtSection(lines), lines, |lines|).items
  {
    ghost var sec := XtSection(lines);
    stats := [];
    var inSection := false;
    var i := 0;
    while i < |lines|
      invariant i <= |lines|
      invariant SectionOf(sec, lines, i) == SectionScan(stats, inSection, false)
    {
      var line := lines[i];
      if Contains(line, "Xt stats:") {
        inSection := true;
        i := i + 1;
        continue;
      }
      if inSection && Contains(line, "networkId=") {
        var networkId := StringOr(FindGroup(QuotedNetworkIdPattern, line, 1), "Unknown");
        var statsLine := StatsLine(lines, line);
        if statsLine.Some? && Contains(statsLine.value, "rb=") {
          var s := statsLine.value;
          stats := stats + [XtStats(networkId, Counter(s, "rb="), Counter(s, "rp="), Counter(s, "tb="),
                                    Counter(s, "tp="))];
        }
      }
      i := i + 1;
    }
  }

  /** The counters `rb`, `rp`, `tb`, `tp` are what `line` of a stats section reads: it is a
      `networkId=` line whose stats line has `rb=`, and they are that stats line's counters. */
  predicate StatsRead(lines: seq<string>, line: string, rb: int, rp: int, tb: int, tp: int)
  {
    && Contains(line, "networkId=")
    && match StatsLine(lines, line)
       case None => false
       case Some(s) =>
         Contains(s, "rb=") && rb == Counter(s, "rb=") && rp == Counter(s, "rp=") && tb == Counter(s, "tb=")
         && tp == Counter(s, "tp=")
  }

  lemma DevEmitFrom(lines: seq<string>, line: string, r: DeviceStats)
    requires r in DevEmit(lines, line)
    ensures StatsRead(lines, line, r.receivedBytes, r.receivedPackets, r.transmittedBytes, r.transmittedPackets)
    ensures !Contains(line, "networkId=\"") ==> r.networkId == "Unknown"
  {
    if !Contains(line, "networkId=\"") {
      NetworkIdDefault(line);
    }
  }

  lemma XtEmitFrom(lines: seq<string>, line: string, r: XtStats)
    requires r in XtEmit(lines, line)
    ensures StatsRead(lines, line, r.receivedBytes, r.receivedPackets, r.transmittedBytes, r.transmittedPackets)
    ensures !Contains(line, "networkId=\"") ==> r.networkId == "Unknown"
  {
    if !Contains(line, "networkId=\"") {
      NetworkIdDefault(line);
    }
  }

  /** Each Dev record comes from a `networkId=` line strictly between the first `Dev stats:` line and
      the first `Xt stats:` line after it, and the stats line that line reads. */
  lemma DevStatsFrom(lines: seq<string>, m: nat)
    requires FirstIndexFrom(lines, 0, DevSection(lines).start) == Some(m)
    ensures forall r :: r in SectionOf(DevSection(lines), lines, |lines|).items ==>
              exists k :: m < k < SectionEnd(DevSection(lines), lines, m)
                          && StatsRead(lines, lines[k], r.receivedBytes, r.receivedPackets, r.transmittedBytes,
                                       r.transmittedPackets)
  {
    var sec := DevSection(lines);
    var e := SectionEnd(sec, lines, m);
    SectionItemsFrom(sec, lines, m);
    forall r | r in SectionOf(sec, lines, |lines|).items
      ensures exists k :: m < k < e && StatsRead(lines, lines[k], r.receivedBytes, r.receivedPackets,
                                                 r.transmittedBytes, r.transmittedPackets)
    {
      var k :| m < k < e && !sec.start(lines[k]) && r in sec.emit(lines[k]);
      DevEmitFrom(lines, lines[k], r);
    }
  }

  /** The Xt section has no ending line: its records are what every line after the first `Xt stats:`
      line gives, to the end of the input. */
  lemma XtStatsToEnd(lines: seq<string>, m: nat)
    requires FirstIndexFrom(lines, 0, XtSection(lines).start) == Some(m)
    ensures SectionEnd(XtSection(lines), lines, m) == |lines|
    ensures SectionOf(XtSection(lines), lines, |lines|).items == EmitIn(XtSection(lines), lines, m + 1, |lines|)
  {
    SectionStopsBefore(XtSection(lines), lines);
  }

  /** Each Xt record comes from a `networkId=` line after the first `Xt stats:` line, and the stats
      line that line reads. */
  lemma XtStatsFrom(lines: seq<string>, m: nat)
    requires FirstIndexFrom(lines, 0, XtSection(lines).start) == Some(m)
    ensures forall r :: r in SectionOf(XtSection(lines), lines, |lines|).items ==>
              exists k :: m < k < |lines|
                          && StatsRead(lines, lines[k], r.receivedBytes, r.receivedPackets, r.transmittedBytes,
                                       r.transmittedPackets)
  {
    var sec := XtSection(lines);
    XtStatsToEnd(lines, m);
    SectionItemsFrom(sec, lines, m);
    forall r | r in SectionOf(sec, lines, |lines|).items
      ensures exists k :: m < k < |lines| && StatsRead(lines, lines[k], r.receivedBytes, r.receivedPackets,
                                                       r.transmittedBytes, r.transmittedPackets)
    {
      var k :| m < k < |lines| && !sec.start(lines[k]) && r in sec.emit(lines[k]);
      XtEmitFrom(lines, lines[k], r);
    }
  }

  // ----- The whole dump -----

  function NetStatsOf(dump: string): NetStatsDumpData
  {
    var lines := Split(dump, "\n");
    NetStatsDumpData(SectionOf(ActiveSection(), lines, |lines|).items,
                     SectionOf(DevSection(lines), lines, |lines|).items,
                     SectionOf(XtSection(lines), lines, |lines|).items)
  }

  /** `parseNetStatsDump`. */
  method ParseNetStatsDump(dump: string) returns (data: NetStatsDumpData)
    ensures data == NetStatsOf(dump)
  {
    var lines := Split(dump, "\n");
    var active := ParseActiveInterfaces(lines);
    var dev := ParseDevStats(lines);
    var xt := ParseXtStats(lines);
    data := NetStatsDumpData(active, dev, xt);
  }
}
