/** `WifiDumpParser`: reads the output of `dumpsys wifi`, split on '\n', into a `WifiDumpData`.
    The scalar fields are read from the first line that carries their marker; the state histories,
    the score reports and the event list are section loops, each a method proved equal to one fold
    over the lines, and the fold is proved equal to a direct description of the section. */
module WifiDumpParser {
  import opened Text
  import opened Patterns
  import opened DumpDataModel
  import opened Sections

  // ----- Reading a value from the first line that has a key -----

  /** Kotlin `lines.find(isKey)?.let(read)`: what `read` gives for the first line that satisfies
      `isKey`, and nothing when no line does. */
  function ReadFirst(lines: seq<string>, isKey: string -> bool, read: string -> Option<string>): (r: Option<string>)
    ensures FirstIndexFrom(lines, 0, isKey).None? ==> r.None?
    ensures r.Some? ==> exists k :: 0 <= k < |lines| && isKey(lines[k]) && read(lines[k]) == r
                                    && forall j :: 0 <= j < k ==> !isKey(lines[j])
  {
    match FirstIndexFrom(lines, 0, isKey)
    case None => None
    case Some(k) => read(lines[k])
  }

  /** Lines before the first key line and lines after it change nothing: the value is decided by
      that one line. */
  lemma {:induction false} ReadFirstDecidedByOneLine(before: seq<string>, line: string, after: seq<string>,
                                                     isKey: string -> bool, read: string -> Option<string>)
    requires forall l :: l in before ==> !isKey(l)
    requires isKey(line)
    ensures ReadFirst(before + [line] + after, isKey, read) == read(line)
    decreases |before|
  {
    var all := before + [line] + after;
    if |before| == 0 {
      assert all[0] == line;
    } else {
      assert all[0] == before[0] && !isKey(before[0]);
      ReadFirstDecidedByOneLine(before[1..], line, after, isKey, read);
      assert all[1..] == before[1..] + [line] + after;
      FirstIndexFromShift(all, isKey);
    }
  }

  /** Searching from the second element is searching the tail. */
  lemma FirstIndexFromShift(xs: seq<string>, p: string -> bool)
    requires |xs| > 0 && !p(xs[0])
    ensures FirstIndexFrom(xs, 0, p) == match FirstIndexFrom(xs[1..], 0, p)
                                       case None => None case Some(k) => Some(k + 1)
  {
    var r := FirstIndexFrom(xs[1..], 0, p);
    if r.Some? {
      assert xs[r.value + 1] == xs[1..][r.value];
      assert forall k :: 1 <= k < r.value + 1 ==> xs[k] == xs[1..][k - 1];
    } else {
      assert forall k :: 1 <= k < |xs| ==> xs[k] == xs[1..][k - 1];
    }
  }

  predicate HasAirplaneMode(l: string) { Contains(l, "AirplaneModeOn") }
  predicate HasVerboseLogging(l: string) { Contains(l, "Verbose logging is") }
  predicate IsWifiInfoLine(l: string) { Contains(l, "mWifiInfo") }
  predicate IsLinkPropertiesLine(l: string) { Contains(l, "mLinkProperties") }

  /** A `curState=` line that names `state` (the three state-machine extractors). */
  predicate IsCurStateOf(state: string, l: string) { StartsWith(l, "curState=") && Contains(l, state) }

  function TrimmedAfter(marker: string, l: string): Option<string> { Some(Trim(SubstringAfter(l, marker))) }

  /** `extractLogLevel`: "On" when the first `Verbose logging is` line contains `on`, "Off" when it
      does not, "Unknown" without such a line. */
  function ExtractLogLevel(lines: seq<string>): (r: string)
    ensures r == "Unknown" <==> forall k :: 0 <= k < |lines| ==> !HasVerboseLogging(lines[k])
    ensures forall k :: FirstIndexFrom(lines, 0, HasVerboseLogging) == Some(k) ==>
              (r == "On" <==> Contains(lines[k], "on")) && (r == "Off" <==> !Contains(lines[k], "on"))
  {
    StringOr(ReadFirst(lines, HasVerboseLogging, (l: string) => Some(if Contains(l, "on") then "On" else "Off")), "Unknown")
  }

  /** `extractAirplaneMode`: "Off" exactly when the first `AirplaneModeOn` line says `false`, "On" when
      that line does not, "Unknown" without such a line. */
  function ExtractAirplaneMode(lines: seq<string>): (r: string)
    ensures r == "Unknown" <==> forall k :: 0 <= k < |lines| ==> !HasAirplaneMode(lines[k])
  {
    StringOr(ReadFirst(lines, HasAirplaneMode, (l: string) => Some(if Contains(l, "false") then "Off" else "On")), "Unknown")
  }

  /** Airplane mode reads "Off" exactly when the first `AirplaneModeOn` line says `false`. */
  lemma AirplaneModeOffIff(lines: seq<string>)
    ensures ExtractAirplaneMode(lines) == "Off" <==>
              exists k :: 0 <= k < |lines| && HasAirplaneMode(lines[k]) && Contains(lines[k], "false")
                          && forall j :: 0 <= j < k ==> !HasAirplaneMode(lines[j])
  {
    var f := FirstIndexFrom(lines, 0, HasAirplaneMode);
    if f.Some? {
      forall k | 0 <= k < |lines| && HasAirplaneMode(lines[k]) && (forall j :: 0 <= j < k ==> !HasAirplaneMode(lines[j]))
        ensures k == f.value
      {
      }
      assert HasAirplaneMode(lines[f.value]);
    }
  }

  /** `extractWifiEnabled`: "Enabled" exactly when some line says `Wi-Fi is enabled`. */
  function ExtractWifiEnabled(lines: seq<string>): (r: string)
    ensures r == "Enabled" <==> exists k :: 0 <= k < |lines| && Contains(lines[k], "Wi-Fi is enabled")
    ensures r != "Enabled" ==> r == "Disabled"
  {
    match FirstLineWith(lines, "Wi-Fi is enabled")
    case Some(_) => "Enabled"
    case None => "Disabled"
  }

  /** `extractWifiControllerState`, `extractClientModeImplState`, `extractSupplicantState`: the text
      after `curState=` on the first line that starts with it and names `state`, or "Unknown". */
  function ExtractCurState(lines: seq<string>, state: string): (r: string)
    ensures (forall k :: 0 <= k < |lines| ==> !IsCurStateOf(state, lines[k])) ==> r == "Unknown"
  {
    StringOr(ReadFirst(lines, (l: string) => IsCurStateOf(state, l), (l: string) => Some(SubstringAfter(l, "curState="))), "Unknown")
  }

  /** The state is the rest of the first matching line after its `curState=` prefix. */
  lemma CurStateIsRestOfLine(lines: seq<string>, state: string, k: nat)
    requires k < |lines| && IsCurStateOf(state, lines[k])
    requires forall j :: 0 <= j < k ==> !IsCurStateOf(state, lines[j])
    ensures ExtractCurState(lines, state) == lines[k][|"curState="|..]
  {
    var isKey := (l: string) => IsCurStateOf(state, l);
    var f := FirstIndexFrom(lines, 0, isKey);
    assert isKey(lines[k]);
    SubstringAfterPrefix(lines[k], "curState=");
  }

  /** `extractInterfaceName`: the trimmed text after `mClientInterfaceName:` on the first line with
      it; only without such a line, the word after `InterfaceName: ` on the first line with
      `InterfaceName:`; "Unknown" when neither gives a value. */
  function ExtractInterfaceName(lines: seq<string>): (r: string)
    ensures forall k :: FirstLineWith(lines, "mClientInterfaceName:") == Some(k) ==>
              r == Trim(SubstringAfter(lines[k], "mClientInterfaceName:"))
    ensures forall k :: FirstLineWith(lines, "mClientInterfaceName:").None? && FirstLineWith(lines, "InterfaceName:") == Some(k) ==>
              r == StringOr(KeyedValue(lines[k], "InterfaceName: ", Word), "Unknown")
    ensures FirstLineWith(lines, "mClientInterfaceName:").None? && FirstLineWith(lines, "InterfaceName:").None? ==>
              r == "Unknown"
  {
    match FirstLineWith(lines, "mClientInterfaceName:")
    case Some(k) => Trim(SubstringAfter(lines[k], "mClientInterfaceName:"))
    case None =>
      match FirstLineWith(lines, "InterfaceName:")
      case Some(k) =>
        FindKeyedRun("InterfaceName: ", Word, lines[k]);
        StringOr(FindGroup(KeyedRun("InterfaceName: ", Word), lines[k], 1), "Unknown")
      case None => "Unknown"
  }

  /** `extractInterfaceUp`, `extractDualStaSupport`, `extractStaApConcurrency`: whether the first line
      with `marker` contains `true`; false without such a line. */
  predicate FirstLineSaysTrue(lines: seq<string>, marker: string)
  {
    match FirstLineWith(lines, marker)
    case Some(k) => Contains(lines[k], "true")
    case None => false
  }

  /** `extractClientModeManagerState`, `extractInterfaceRole`: the trimmed text after the marker on the
      first line with it, or "Unknown". */
  function TrimmedAfterMarker(lines: seq<string>, marker: string): (r: string)
    ensures FirstLineWith(lines, marker).None? ==> r == "Unknown"
    ensures forall k :: FirstLineWith(lines, marker) == Some(k) ==> r == Trim(SubstringAfter(lines[k], marker))
  {
    match FirstLineWith(lines, marker)
    case Some(k) => Trim(SubstringAfter(lines[k], marker))
    case None => "Unknown"
  }

  // ----- The `mWifiInfo` line -----

  const SsidPattern: Pattern := [Lit("SSID: \""), Group(1, [Plus(Not(Chars("\"")))]), Lit("\"")]
  /** `RSSI: (-?\d+)`. */
  const RssiPattern: Pattern := [Lit("RSSI: "), Group(1, [Run(Chars("-"), 0, Some(1), false), Plus(Digit)])]

  /** `<label>: (\d+<unit>)`: the link speeds (`Mbps`) and the frequency (`MHz`). */
  function DigitsWithUnit(name: string, unit: string): Pattern
  {
    [Lit(name + ": "), Group(1, [Plus(Digit), Lit(unit)])]
  }

  /** A field of the first `mWifiInfo` line: the first group of `pat`, or `default` when there is no
      such line or the pattern does not match it. */
  function WifiInfoField(lines: seq<string>, pat: Pattern, default: string): (r: string)
    ensures (forall k :: 0 <= k < |lines| ==> !IsWifiInfoLine(lines[k])) ==> r == default
    ensures r == default || exists k :: 0 <= k < |lines| && IsWifiInfoLine(lines[k]) && FindGroup(pat, lines[k], 1) == Some(r)
  {
    StringOr(ReadFirst(lines, IsWifiInfoLine, (l: string) => FindGroup(pat, l, 1)), default)
  }

  /** A field read as `key(\d+)` from the `mWifiInfo` line is either its default or a non-empty run of
      digits. */
  lemma DigitFieldShape(lines: seq<string>, key: string, default: string)
    ensures var r := WifiInfoField(lines, KeyedRun(key, Digit), default);
            r == default || (|r| >= 1 && AllDigits(r))
  {
    var r := WifiInfoField(lines, KeyedRun(key, Digit), default);
    if r != default {
      var k :| 0 <= k < |lines| && IsWifiInfoLine(lines[k]) && FindGroup(KeyedRun(key, Digit), lines[k], 1) == Some(r);
      FindKeyedRun(key, Digit, lines[k]);
    }
  }

  /** The name of a `Security type` code. */
  function SecurityName(code: string): (name: string)
  {
    if code == "0" then "Open"
    else if code == "1" then "WEP"
    else if code == "2" then "WPA/WPA2"
    else if code == "3" then "EAP"
    else if code == "4" then "WPA3-SAE"
    else "Unknown(" + code + ")"
  }

  /** Different codes get different names, so the name tells the code. */
  lemma SecurityNamesDistinct(a: string, b: string)
    requires a != b
    ensures SecurityName(a) != SecurityName(b)
  {
    var known := ["0", "1", "2", "3", "4"];
    var x := SecurityName(a);
    var y := SecurityName(b);
    if a !in known && b !in known {
      assert x[8..|x| - 1] == a;
      assert y[8..|y| - 1] == b;
    } else if a !in known {
      assert x[0] == 'U';
      assert y[0] != 'U';
    } else if b !in known {
      assert y[0] == 'U';
      assert x[0] != 'U';
    }
  }

  /** The name of a `Wi-Fi standard` number. */
  function WifiStandardName(code: string): (name: string)
  {
    if code == "4" then "802.11n(WiFi " + code + ")"
    else if code == "5" then "802.11ac(WiFi " + code + ")"
    else if code == "6" then "802.11ax(WiFi " + code + ")"
    else "802.11(WiFi " + code + ")"
  }

  /** Each name ends with the number it was made from, and different numbers get different names. */
  lemma WifiStandardNamesDistinct(a: string, b: string)
    ensures EndsWith(WifiStandardName(a), a + ")")
    ensures a != b ==> WifiStandardName(a) != WifiStandardName(b)
  {
    var x := WifiStandardName(a);
    var y := WifiStandardName(b);
    assert x[|x| - |a| - 1..] == a + ")";
    var special := ["4", "5", "6"];
    if a != b {
      if a !in special && b !in special {
        assert x[12..|x| - 1] == a;
        assert y[12..|y| - 1] == b;
      } else if a in special && b in special {
        assert x[6] == (if a == "4" then 'n' else 'a') && y[6] == (if b == "4" then 'n' else 'a');
        assert x[7] == (if a == "4" then '(' else if a == "5" then 'c' else 'x');
        assert y[7] == (if b == "4" then '(' else if b == "5" then 'c' else 'x');
      } else if a in special {
        assert x[6] != '(' && y[6] == '(';
      } else {
        assert y[6] != '(' && x[6] == '(';
      }
    }
  }

  /** The reference reading of `key(\d+)` on the `mWifiInfo` line: the digits after the first `key`
      on the first line with `mWifiInfo`, and nothing without such a line. */
  function WifiInfoDigits(lines: seq<string>, key: string): (r: Option<string>)
    ensures FirstIndexFrom(lines, 0, IsWifiInfoLine).None? ==> r.None?
    ensures forall k :: FirstIndexFrom(lines, 0, IsWifiInfoLine) == Some(k) ==> r == KeyedValue(lines[k], key, Digit)
  {
    match FirstIndexFrom(lines, 0, IsWifiInfoLine)
    case None => None
    case Some(k) => KeyedValue(lines[k], key, Digit)
  }

  /** `find { it.contains("mWifiInfo") }?.let { Regex("key(\\d+)").find(it)?.groupValues?.get(1) }` is
      that reading. */
  lemma WifiInfoDigitsFound(lines: seq<string>, key: string)
    ensures ReadFirst(lines, IsWifiInfoLine, (l: string) => FindGroup(KeyedRun(key, Digit), l, 1)) == WifiInfoDigits(lines, key)
  {
    var f := FirstIndexFrom(lines, 0, IsWifiInfoLine);
    if f.Some? {
      FindKeyedRun(key, Digit, lines[f.value]);
    }
  }

  const SecurityTypeKey := "Security type: "
  const WifiStandardKey := "Wi-Fi standard: "

  /** `extractSecurityType`: the name of the first `Security type: <digits>` code on the first
      `mWifiInfo` line; "Unknown" when there is no such line or it carries no code. */
  function ExtractSecurityType(lines: seq<string>): (r: string)
    ensures (forall k :: 0 <= k < |lines| ==> !IsWifiInfoLine(lines[k])) ==> r == "Unknown"
    ensures forall k :: FirstIndexFrom(lines, 0, IsWifiInfoLine) == Some(k) && KeyedValue(lines[k], SecurityTypeKey, Digit).Some? ==>
              r == SecurityName(KeyedValue(lines[k], SecurityTypeKey, Digit).value)
    ensures forall k :: FirstIndexFrom(lines, 0, IsWifiInfoLine) == Some(k) && KeyedValue(lines[k], SecurityTypeKey, Digit).None? ==>
              r == "Unknown"
  {
    WifiInfoDigitsFound(lines, SecurityTypeKey);
    match ReadFirst(lines, IsWifiInfoLine, (l: string) => FindGroup(KeyedRun(SecurityTypeKey, Digit), l, 1))
    case Some(code) => SecurityName(code)
    case None => "Unknown"
  }

  /** `extractWifiStandard`: the name of the first `Wi-Fi standard: <digits>` number on the first
      `mWifiInfo` line; "Unknown" when there is no such line or it carries no number. */
  function ExtractWifiStandard(lines: seq<string>): (r: string)
    ensures (forall k :: 0 <= k < |lines| ==> !IsWifiInfoLine(lines[k])) ==> r == "Unknown"
    ensures forall k :: FirstIndexFrom(lines, 0, IsWifiInfoLine) == Some(k) && KeyedValue(lines[k], WifiStandardKey, Digit).Some? ==>
              r == WifiStandardName(KeyedValue(lines[k], WifiStandardKey, Digit).value)
    ensures forall k :: FirstIndexFrom(lines, 0, IsWifiInfoLine) == Some(k) && KeyedValue(lines[k], WifiStandardKey, Digit).None? ==>
              r == "Unknown"
  {
    WifiInfoDigitsFound(lines, WifiStandardKey);
    match ReadFirst(lines, IsWifiInfoLine, (l: string) => FindGroup(KeyedRun(WifiStandardKey, Digit), l, 1))
    case Some(code) => WifiStandardName(code)
    case None => "Unknown"
  }

  /** The security type table: codes 0 to 4 have their names, any other code reads `Unknown(<code>)`. */
  lemma SecurityNameTable(code: string)
    ensures SecurityName("0") == "Open" && SecurityName("1") == "WEP" && SecurityName("2") == "WPA/WPA2"
    ensures SecurityName("3") == "EAP" && SecurityName("4") == "WPA3-SAE"
    ensures code !in ["0", "1", "2", "3", "4"] ==> SecurityName(code) == "Unknown(" + code + ")"
  {
  }

  /** The Wi-Fi standard table: 4, 5 and 6 are 802.11n, ac and ax, any other number plain 802.11,
      each followed by `(WiFi <number>)`. */
  lemma WifiStandardNameTable(code: string)
    ensures WifiStandardName("4") == "802.11n(WiFi 4)" && WifiStandardName("5") == "802.11ac(WiFi 5)"
    ensures WifiStandardName("6") == "802.11ax(WiFi 6)"
    ensures code !in ["4", "5", "6"] ==> WifiStandardName(code) == "802.11(WiFi " + code + ")"
  {
  }

  // ----- IP configuration -----

  /** `\d+\.\d+\.\d+\.\d+`. */
  const Ipv4: Pattern := [Plus(Digit), Lit("."), Plus(Digit), Lit("."), Plus(Digit), Lit("."), Plus(Digit)]

  /** `LinkAddresses: \[.*?(\d+\.\d+\.\d+\.\d+/\d+)`. */
  const LinkAddressPattern: Pattern :=
    [Lit("LinkAddresses: ["), FewestMany(Dot), Group(1, Ipv4 + [Lit("/"), Plus(Digit)])]

  /** Kotlin `a ?: b ?: "Unknown"` over two line lookups: the first is consulted first, and the
      second only when the first finds no line or its pattern does not match. */
  function PreferFirst(lines: seq<string>, firstKey: string, firstPat: Pattern, secondKey: string, secondPat: Pattern): (r: string)
    ensures forall v :: ReadFirst(lines, (l: string) => Contains(l, firstKey), (l: string) => FindGroup(firstPat, l, 1)) == Some(v) ==> r == v
    ensures (forall k :: 0 <= k < |lines| ==> !Contains(lines[k], firstKey) && !Contains(lines[k], secondKey)) ==> r == "Unknown"
  {
    match ReadFirst(lines, (l: string) => Contains(l, firstKey), (l: string) => FindGroup(firstPat, l, 1))
    case Some(v) => v
    case None => StringOr(ReadFirst(lines, (l: string) => Contains(l, secondKey), (l: string) => FindGroup(secondPat, l, 1)), "Unknown")
  }

  /** `extractIpAddress`. */
  function ExtractIpAddress(lines: seq<string>): string
  {
    PreferFirst(lines, "mLinkProperties", LinkAddressPattern, "IP address", [Lit("IP address "), Group(1, Ipv4)])
  }

  /** `extractGateway`. */
  function ExtractGateway(lines: seq<string>): string
  {
    PreferFirst(lines, "mLinkProperties", [Lit("0.0.0.0/0 -> "), Group(1, Ipv4)], "Gateway", [Lit("Gateway "), Group(1, Ipv4)])
  }

  /** `/(\d+\.\d+\.\d+\.\d+)`. */
  const DnsPattern: Pattern := [Lit("/"), Group(1, Ipv4)]

  /** The addresses of one `DnsAddresses:` line: every `/a.b.c.d`, slash dropped, in order. */
  function DnsServersOfLine(line: string): (servers: seq<string>)
    ensures !Contains(line, "/") ==> servers == []
  {
    if !Contains(line, "/") then
      FindWithoutLit("/", [Group(1, Ipv4)], line);
      assert DnsPattern == [Lit("/")] + [Group(1, Ipv4)];
      FindAllFrom(DnsPattern, line, 0, 1)
    else FindAllFrom(DnsPattern, line, 0, 1)
  }

  /** `extractDnsServers`: the addresses of the first `DnsAddresses:` line, none without one. */
  function ExtractDnsServers(lines: seq<string>): (servers: seq<string>)
    ensures FirstLineWith(lines, "DnsAddresses:").None? ==> servers == []
    ensures forall k :: FirstLineWith(lines, "DnsAddresses:") == Some(k) ==> servers == DnsServersOfLine(lines[k])
  {
    match FirstLineWith(lines, "DnsAddresses:")
    case Some(k) => DnsServersOfLine(lines[k])
    case None => []
  }

  /** `extractDhcpLeaseDuration`: the digits after the first `leaseDuration ` with a trailing `s`, or
      "Unknown". */
  function ExtractDhcpLeaseDuration(lines: seq<string>): (r: string)
  {
    match ReadFirst(lines, (l: string) => Contains(l, "leaseDuration"), (l: string) => FindGroup(KeyedRun("leaseDuration ", Digit), l, 1))
    case Some(v) => v + "s"
    case None => "Unknown"
  }

  /** The lease duration is "Unknown" or a run of digits followed by `s`. */
  lemma LeaseDurationShape(lines: seq<string>)
    ensures var r := ExtractDhcpLeaseDuration(lines);
            r == "Unknown" || (|r| >= 2 && r[|r| - 1] == 's' && AllDigits(r[..|r| - 1]))
  {
    var read := (l: string) => FindGroup(KeyedRun("leaseDuration ", Digit), l, 1);
    var v := ReadFirst(lines, (l: string) => Contains(l, "leaseDuration"), read);
    if v.Some? {
      var k :| 0 <= k < |lines| && Contains(lines[k], "leaseDuration") && read(lines[k]) == v;
      FindKeyedRun("leaseDuration ", Digit, lines[k]);
      assert (v.value + "s")[..|v.value + "s"| - 1] == v.value;
    }
  }

  // ----- State histories -----

  /** `time=([\d-]+ [\d:]+\.\d+) processed=(\w+) org=(\w+) dest=([\w<>null]+) what=([\w_]+)`. */
  const RecordPattern: Pattern :=
    [ Lit("time="),
      Group(1, [Plus(Union(Digit, Chars("-"))), Lit(" "), Plus(Union(Digit, Chars(":"))), Lit("."), Plus(Digit)]),
      Lit(" processed="), Group(2, [Plus(Word)]),
      Lit(" org="), Group(3, [Plus(Word)]),
      Lit(" dest="), Group(4, [Plus(Union(Word, Chars("<>null")))]),
      Lit(" what="), Group(5, [Plus(Union(Word, Chars("_")))]) ]

  /** `parseStateChangeRecord`: `org` is the state left and `dest` the state entered; the context
      becomes the description. A line the pattern does not match gives no record. */
  function ParseStateChangeRecord(line: string, context: string): (r: Option<StateChangeRecord>)
    ensures r.None? <==> Find(RecordPattern, line).None?
    ensures r.Some? ==> r.value.description == context
                        && r.value.fromState == GroupValue(Find(RecordPattern, line).value, 3)
                        && r.value.toState == GroupValue(Find(RecordPattern, line).value, 4)
  {
    match Find(RecordPattern, line)
    case None => None
    case Some(m) => Some(StateChangeRecord(GroupValue(m, 1), GroupValue(m, 3), GroupValue(m, 4), GroupValue(m, 5), context))
  }

  /** A line without `time=` gives no record. */
  lemma RecordNeedsTime(line: string, context: string)
    requires !Contains(line, "time=")
    ensures ParseStateChangeRecord(line, context).None?
  {
    assert RecordPattern == [Lit("time=")] + RecordPattern[1..];
    FindWithoutLit("time=", RecordPattern[1..], line);
  }

  function HistoryEmit(context: string, line: string): seq<StateChangeRecord>
  {
    if StartsWith(Trim(line), "rec[") then
      match ParseStateChangeRecord(line, context)
      case Some(r) => [r]
      case None => []
    else []
  }

  /** The loop of `parseControllerHistory` (`WifiController:`), `parseClientModeHistory`
      (`WifiClientModeManager:`) and `parseSupplicantHistory` (`SupplicantStateTracker:`). */
  function HistorySection(marker: string, context: string): Section<StateChangeRecord>
  {
    Section((l: string) => Contains(l, marker), (l: string) => false, (l: string) => HistoryEmit(context, l),
            (l: string) => StartsWith(l, "curState="))
  }

  /** The three history loops, which differ only in their marker and the context they record. */
  method ParseStateHistory(lines: seq<string>, marker: string, context: string) returns (records: seq<StateChangeRecord>)
    ensures records == SectionOf(HistorySection(marker, context), lines, |lines|).items
  {
    ghost var sec := HistorySection(marker, context);
    records := [];
    var inSection := false;
    var i := 0;
    while i < |lines|
      invariant i <= |lines|
      invariant SectionOf(sec, lines, i) == SectionScan(records, inSection, false)
    {
      var line := lines[i];
      if Contains(line, marker) {
        inSection := true;
        i := i + 1;
        continue;
      }
      if inSection && StartsWith(Trim(line), "rec[") {
        var record := ParseStateChangeRecord(line, context);
        if record.Some? {
          records := records + [record.value];
        }
      }
      if inSection && StartsWith(line, "curState=") {
        DoneStays(sec, lines, i + 1, |lines|);
        break;
      }
      i := i + 1;
    }
  }

  /** A line that starts with `curState=` never reads as a `rec[` line. */
  lemma CurStateIsNotRecord(line: string)
    requires StartsWith(line, "curState=")
    ensures !StartsWith(Trim(line), "rec[")
  {
    assert line[0] == 'c' && line[8] == '=';
    assert TrimStart(line) == line;
    TrimEndSpec(line);
    var t := TrimEnd(line);
    assert t[0] == line[0];
  }

  /** A history holds the records of the `rec[` lines after the first line with its marker, up to the
      first following line that starts with `curState=` (other marker lines skipped), each carrying
      the context; the `curState=` line itself adds nothing. */
  lemma HistorySpec(lines: seq<string>, marker: string, context: string)
    ensures var sec := HistorySection(marker, context);
            var h := SectionOf(sec, lines, |lines|).items;
            (FirstIndexFrom(lines, 0, sec.start).None? ==> h == [])
            && (forall m :: FirstIndexFrom(lines, 0, sec.start) == Some(m) ==> h == EmitIn(sec, lines, m + 1, SectionEnd(sec, lines, m)))
  {
    var sec := HistorySection(marker, context);
    SectionSpec(sec, lines);
    var f := FirstIndexFrom(lines, 0, sec.start);
    if f.Some? {
      var e := SectionEnd(sec, lines, f.value);
      if e < |lines| {
        CurStateIsNotRecord(lines[e]);
      }
    }
  }

  /** Every record of a history carries the context of the history it was read for. */
  lemma HistoryContext(lines: seq<string>, marker: string, context: string)
    ensures forall r :: r in SectionOf(HistorySection(marker, context), lines, |lines|).items ==> r.description == context
  {
    var sec := HistorySection(marker, context);
    ItemsComeFromLines(sec, lines, |lines|);
    forall r | r in SectionOf(sec, lines, |lines|).items
      ensures r.description == context
    {
      var k :| 0 <= k < |lines| && r in sec.emit(lines[k]);
      assert r in HistoryEmit(context, lines[k]);
    }
  }

  // ----- Score reports -----

  /** One CSV row of at least 21 fields: field 6 is the frequency and field 20 the score. */
  function ScoreRecordOf(parts: seq<string>): WifiScoreRecord
    requires |parts| >= 21
  {
    WifiScoreRecord(parts[0], parts[1], parts[2], parts[3], parts[4], parts[6], parts[7], parts[8], parts[9],
                    parts[10], parts[20])
  }

  function ScoreEmit(line: string): seq<WifiScoreRecord>
  {
    if Contains(line, ",") && |Split(line, ",")| >= 21 then [ScoreRecordOf(Split(line, ","))] else []
  }

  function ScoreSection(): Section<WifiScoreRecord>
  {
    Section((l: string) => Contains(l, "time,session,netid,rssi"), (l: string) => Contains(l, "externalScorerActive="),
            ScoreEmit, (l: string) => false)
  }

  /** `parseScoreReports`. */
  method ParseScoreReports(lines: seq<string>) returns (records: seq<WifiScoreRecord>)
    ensures records == SectionOf(ScoreSection(), lines, |lines|).items
  {
    ghost var sec := ScoreSection();
    records := [];
    var inSection := false;
    var i := 0;
    while i < |lines|
      invariant i <= |lines|
      invariant SectionOf(sec, lines, i) == SectionScan(records, inSection, false)
    {
      var line := lines[i];
      if Contains(line, "time,session,netid,rssi") {
        inSection := true;
        i := i + 1;
        continue;
      }
      if inSection && Contains(line, "externalScorerActive=") {
        DoneStays(sec, lines, i + 1, |lines|);
        break;
      }
      if inSection && Contains(line, ",") {
        var parts := Split(line, ",");
        if |parts| >= 21 {
          records := records + [WifiScoreRecord(parts[0], parts[1], parts[2], parts[3], parts[4], parts[6], parts[7],
                                                parts[8], parts[9], parts[10], parts[20])];
        }
      }
      i := i + 1;
    }
  }

  /** Every score record is a line of at least 21 comma-separated fields read field by field, and the
      records are exactly those of the lines after the first CSV header up to the first following
      `externalScorerActive=` line. */
  lemma ScoreReportsSpec(lines: seq<string>)
    ensures var h := SectionOf(ScoreSection(), lines, |lines|).items;
            h == SectionItems(ScoreSection(), lines)
            && forall r :: r in h ==> exists k :: 0 <= k < |lines| && |Split(lines[k], ",")| >= 21
                                       && r.score == Split(lines[k], ",")[20] && r.frequency == Split(lines[k], ",")[6]
                                       && r.timestamp == Split(lines[k], ",")[0]
  {
    var sec := ScoreSection();
    SectionSpec(sec, lines);
    ItemsComeFromLines(sec, lines, |lines|);
    var h := SectionOf(sec, lines, |lines|).items;
    forall r | r in h
      ensures exists k :: 0 <= k < |lines| && |Split(lines[k], ",")| >= 21
                          && r.score == Split(lines[k], ",")[20] && r.frequency == Split(lines[k], ",")[6]
                          && r.timestamp == Split(lines[k], ",")[0]
    {
      var k :| 0 <= k < |lines| && r in sec.emit(lines[k]);
      assert r in ScoreEmit(lines[k]);
    }
  }

  /** No score record is read without a CSV header line. */
  lemma NoScoresWithoutHeader(lines: seq<string>)
    requires forall k :: 0 <= k < |lines| ==> !Contains(lines[k], "time,session,netid,rssi")
    ensures SectionOf(ScoreSection(), lines, |lines|).items == []
  {
    SectionSpec(ScoreSection(), lines);
  }

  // ----- Events -----

  /** `\d{2}c0\d{2}c1...`: a pair of digits before each separator of `cs`. */
  function PairsItems(cs: string): Pattern
  {
    if |cs| == 0 then [] else [Exactly(Digit, 2), Lit([cs[0]])] + PairsItems(cs[1..])
  }

  /** The separators of a time stamp, `MM-DD hh:mm:ss.` */
  const StampSeparators := "- ::."

  /** `(\d{2}-\d{2} \d{2}:\d{2}:\d{2}\.\d+)`. */
  const TimestampPattern: Pattern := [Group(1, PairsItems(StampSeparators) + [Plus(Digit)])]

  /** Two digits and then the separator `c` at `q`. */
  predicate PairAt(s: string, q: nat, c: char)
  {
    q + 3 <= |s| && IsDigit(s[q]) && IsDigit(s[q + 1]) && s[q + 2] == c
  }

  /** Two digits before each separator of `cs`, one pair after the other from `q`. */
  predicate PairsAt(s: string, q: nat, cs: string)
    decreases |cs|
  {
    q + 3 * |cs| <= |s| && (|cs| == 0 || (PairAt(s, q, cs[0]) && PairsAt(s, q + 3, cs[1..])))
  }

  /** A time stamp `MM-DD hh:mm:ss.f` starts at `p`: two digits before each of `-`, space, `:`, `:`
      and `.`, then at least one digit. */
  predicate StampAt(s: string, p: nat)
  {
    PairsAt(s, p, StampSeparators) && p + 15 < |s| && IsDigit(s[p + 15])
  }

  /** The time stamp that starts at `p`: its fixed part and every digit of the fraction. */
  function StampValue(s: string, p: nat): string
  {
    if p + 15 <= |s| then s[p..p + 15 + RunLength(s, p + 15, Digit, None)] else ""
  }

  /** The first position of a line where a time stamp starts. */
  function FirstStamp(line: string): Option<nat>
  {
    FirstAt((q: nat) => StampAt(line, q), 0, |line|)
  }

  /** `\d{2}` matches at `q` exactly when two digits follow. */
  lemma TwoDigitsAt(s: string, q: nat)
    requires q <= |s|
    ensures RunLength(s, q, Digit, Some(2)) == 2 <==> q + 2 <= |s| && IsDigit(s[q]) && IsDigit(s[q + 1])
  {
    if q + 2 <= |s| && IsDigit(s[q]) && IsDigit(s[q + 1]) {
      assert RunLength(s, q + 1, Digit, Some(1)) == 1;
    }
  }

  lemma CharAt(s: string, c: char, q: nat)
    ensures OccursAt(s, [c], q) <==> q < |s| && s[q] == c
  {
    if q < |s| && s[q] == c {
      assert s[q..q + 1] == [c];
    }
  }

  /** Two digits and a separator `c` at the head of the remaining items. */
  lemma MatchPairAt(items: Pattern, i: nat, c: char, s: string, q: nat, g: map<nat, string>)
    requires i + 1 < |items| && items[i] == Exactly(Digit, 2) && items[i + 1] == Lit([c]) && q <= |s|
    ensures Match(items[i..], s, q, g) == if PairAt(s, q, c) then Match(items[i + 2..], s, q + 3, g) else None
  {
    MatchExactlyAt(items, i, Digit, 2, s, q, g);
    TwoDigitsAt(s, q);
    if q + 2 <= |s| && IsDigit(s[q]) && IsDigit(s[q + 1]) {
      MatchLitAt(items, i + 1, [c], s, q + 2, g);
      CharAt(s, c, q + 2);
    }
  }

  /** The pairs of `cs` followed by `rest`: each pair in turn, then the rest. */
  lemma {:induction false} MatchPairs(cs: string, rest: Pattern, s: string, q: nat, g: map<nat, string>)
    requires q <= |s|
    ensures Match(PairsItems(cs) + rest, s, q, g) ==
              if PairsAt(s, q, cs) then Match(rest, s, q + 3 * |cs|, g) else None
    decreases |cs|
  {
    var items := PairsItems(cs) + rest;
    if |cs| == 0 {
      assert items == rest;
    } else {
      assert items == [Exactly(Digit, 2), Lit([cs[0]])] + (PairsItems(cs[1..]) + rest);
      assert items[0..] == items;
      assert items[2..] == PairsItems(cs[1..]) + rest;
      MatchPairAt(items, 0, cs[0], s, q, g);
      if PairAt(s, q, cs[0]) {
        MatchPairs(cs[1..], rest, s, q + 3, g);
      }
    }
  }

  /** `\d+` closing group 1 opened at `p`, from `q`: the longest run of digits there. */
  lemma MatchDigitsClose(s: string, p: nat, q: nat)
    requires p <= q <= |s|
    ensures Match([Plus(Digit), Close(1, p)], s, q, map[]) ==
              if q < |s| && IsDigit(s[q])
              then Some(State(q + RunLength(s, q, Digit, None), map[1 := s[p..q + RunLength(s, q, Digit, None)]]))
              else None
  {
    var g: map<nat, string> := map[];
    MatchPlusClose(Digit, 1, p, s, q, g);
    var m := RunLength(s, q, Digit, None);
    if m >= 1 {
      assert q < |s| && IsDigit(s[q]);
      assert g[1 := s[p..q + m]] == map[1 := s[p..q + m]];
    } else {
      assert !(q < |s| && IsDigit(s[q]));
    }
  }

  /** `((\d{2}c)...\d+)` over the separators `cs`: the pairs, then the longest run of digits, all
      captured as group 1; the pairs end at `q`. */
  lemma MatchPairsThenDigits(cs: string, s: string, p: nat, q: nat)
    requires p <= |s| && q == p + 3 * |cs|
    ensures Match([Group(1, PairsItems(cs) + [Plus(Digit)])], s, p, map[]) ==
              if PairsAt(s, p, cs) && q < |s| && IsDigit(s[q])
              then Some(State(q + RunLength(s, q, Digit, None), map[1 := s[p..q + RunLength(s, q, Digit, None)]]))
              else None
  {
    var body := PairsItems(cs) + [Plus(Digit)];
    MatchSoleGroup(1, body, s, p, map[]);
    assert body + [Close(1, p)] == PairsItems(cs) + [Plus(Digit), Close(1, p)];
    MatchPairs(cs, [Plus(Digit), Close(1, p)], s, p, map[]);
    if PairsAt(s, p, cs) {
      MatchDigitsClose(s, p, q);
    }
  }

  /** The time stamp pattern matches at `p` exactly where a time stamp starts, and captures it whole. */
  lemma MatchTimestamp(s: string, p: nat)
    requires p <= |s|
    ensures var r := Match(TimestampPattern, s, p, map[]);
            (r.Some? <==> StampAt(s, p)) && (r.Some? ==> r.value.groups == map[1 := StampValue(s, p)])
  {
    assert |StampSeparators| == 5;
    MatchPairsThenDigits(StampSeparators, s, p, p + 15);
  }

  /** `extractTimestamp`: the first time stamp of the line, or "Unknown". */
  function ExtractTimestamp(line: string): (t: string)
    ensures FirstStamp(line).None? ==> t == "Unknown"
    ensures forall p :: FirstStamp(line) == Some(p) ==> t == StampValue(line, p) && StampAt(line, p)
  {
    FindStamp(line);
    StringOr(FindGroup(TimestampPattern, line, 1), "Unknown")
  }

  /** `Regex(...).find(line)` reports the time stamp at the first position where one starts. */
  lemma FindStamp(line: string)
    ensures var f := Find(TimestampPattern, line);
            var p := FirstStamp(line);
            (f.Some? <==> p.Some?) && (p.Some? ==> GroupValue(f.value, 1) == StampValue(line, p.value))
  {
    forall q | 0 <= q <= |line|
      ensures Match(TimestampPattern, line, q, map[]).Some? <==> StampAt(line, q)
      ensures StampAt(line, q) ==> Match(TimestampPattern, line, q, map[]).value.groups == map[1 := StampValue(line, q)]
    {
      MatchTimestamp(line, q);
    }
    FindAt(TimestampPattern, line, 0, (q: nat) => StampAt(line, q), (q: nat) => StampValue(line, q));
  }

  /** The event types a line can announce. */
  predicate IsEventType(t: string)
  {
    t == "WIFI_ENABLED" || t == "CONNECT_NETWORK" || t == "NETWORK_CONNECTION_EVENT"
  }

  /** The position of an event type in the order the parser tests them. */
  function EventRank(eventType: string): nat
  {
    if eventType == "WIFI_ENABLED" then 0 else if eventType == "CONNECT_NETWORK" then 1 else 2
  }

  function EventIf(line: string, stamp: string, present: bool, eventType: string): (events: seq<WifiEvent>)
    ensures |events| <= 1
    ensures forall e :: e in events ==> e == WifiEvent(stamp, eventType, Contains(line, "screenOn=true"), line)
    ensures present <==> |events| == 1
  {
    if present then [WifiEvent(stamp, eventType, Contains(line, "screenOn=true"), line)] else []
  }

  /** `parseEventHistory`'s three tests on one line whose time stamp reads `stamp`. */
  function EventsStamped(line: string, stamp: string): (events: seq<WifiEvent>)
  {
    EventIf(line, stamp, Contains(line, " WIFI_ENABLED "), "WIFI_ENABLED")
    + EventIf(line, stamp, Contains(line, " CONNECT_NETWORK "), "CONNECT_NETWORK")
    + EventIf(line, stamp, Contains(line, " NETWORK_CONNECTION_EVENT "), "NETWORK_CONNECTION_EVENT")
  }

  /** `parseEventHistory`'s three tests on one line. */
  function EventsOf(line: string): (events: seq<WifiEvent>)
  {
    EventsStamped(line, ExtractTimestamp(line))
  }

  /** Each event of a line is of a known type and carries the line, the given time stamp and whether
      the line says `screenOn=true`. */
  lemma EventsStampedFields(line: string, stamp: string)
    ensures forall e :: e in EventsStamped(line, stamp) ==>
                          IsEventType(e.eventType) && e.details == line && e.timestamp == stamp
                          && (e.screenOn <==> Contains(line, "screenOn=true"))
  {
    var on := Contains(line, "screenOn=true");
    var a := EventIf(line, stamp, Contains(line, " WIFI_ENABLED "), "WIFI_ENABLED");
    var b := EventIf(line, stamp, Contains(line, " CONNECT_NETWORK "), "CONNECT_NETWORK");
    var c := EventIf(line, stamp, Contains(line, " NETWORK_CONNECTION_EVENT "), "NETWORK_CONNECTION_EVENT");
    forall e | e in EventsStamped(line, stamp)
      ensures IsEventType(e.eventType) && e.details == line && e.timestamp == stamp && (e.screenOn <==> on)
    {
      assert e in a + b + c;
      if e in a {
        assert e == WifiEvent(stamp, "WIFI_ENABLED", on, line);
      } else if e in b {
        assert e == WifiEvent(stamp, "CONNECT_NETWORK", on, line);
      } else {
        assert e == WifiEvent(stamp, "NETWORK_CONNECTION_EVENT", on, line);
      }
    }
  }

  /** Some event in `events` is of type `t`. */
  predicate HasEventOfType(events: seq<WifiEvent>, t: string)
  {
    exists e :: e in events && e.eventType == t
  }

  lemma HasEventOfTypeConcat(x: seq<WifiEvent>, y: seq<WifiEvent>, t: string)
    ensures HasEventOfType(x + y, t) <==> HasEventOfType(x, t) || HasEventOfType(y, t)
  {
    if HasEventOfType(x + y, t) {
      var e :| e in x + y && e.eventType == t;
      assert e in x || e in y;
    }
    if HasEventOfType(x, t) {
      var e :| e in x && e.eventType == t;
      assert e in x + y;
    }
    if HasEventOfType(y, t) {
      var e :| e in y && e.eventType == t;
      assert e in x + y;
    }
  }

  lemma EventIfHasType(line: string, stamp: string, present: bool, eventType: string, t: string)
    ensures HasEventOfType(EventIf(line, stamp, present, eventType), t) <==> present && eventType == t
  {
    if present {
      assert EventIf(line, stamp, present, eventType)[0].eventType == eventType;
    }
  }

  /** A line adds an event of a type exactly when it names the type between spaces. */
  lemma EventsStampedTypes(line: string, stamp: string)
    ensures var events := EventsStamped(line, stamp);
            (HasEventOfType(events, "WIFI_ENABLED") <==> Contains(line, " WIFI_ENABLED "))
            && (HasEventOfType(events, "CONNECT_NETWORK") <==> Contains(line, " CONNECT_NETWORK "))
            && (HasEventOfType(events, "NETWORK_CONNECTION_EVENT") <==> Contains(line, " NETWORK_CONNECTION_EVENT "))
  {
    var a := EventIf(line, stamp, Contains(line, " WIFI_ENABLED "), "WIFI_ENABLED");
    var b := EventIf(line, stamp, Contains(line, " CONNECT_NETWORK "), "CONNECT_NETWORK");
    var c := EventIf(line, stamp, Contains(line, " NETWORK_CONNECTION_EVENT "), "NETWORK_CONNECTION_EVENT");
    forall t | IsEventType(t)
      ensures HasEventOfType(a + b + c, t) <==> HasEventOfType(a, t) || HasEventOfType(b, t) || HasEventOfType(c, t)
    {
      HasEventOfTypeConcat(a + b, c, t);
      HasEventOfTypeConcat(a, b, t);
    }
    forall t | IsEventType(t)
      ensures HasEventOfType(a, t) <==> Contains(line, " WIFI_ENABLED ") && t == "WIFI_ENABLED"
      ensures HasEventOfType(b, t) <==> Contains(line, " CONNECT_NETWORK ") && t == "CONNECT_NETWORK"
      ensures HasEventOfType(c, t) <==> Contains(line, " NETWORK_CONNECTION_EVENT ") && t == "NETWORK_CONNECTION_EVENT"
    {
      EventIfHasType(line, stamp, Contains(line, " WIFI_ENABLED "), "WIFI_ENABLED", t);
      EventIfHasType(line, stamp, Contains(line, " CONNECT_NETWORK "), "CONNECT_NETWORK", t);
      EventIfHasType(line, stamp, Contains(line, " NETWORK_CONNECTION_EVENT "), "NETWORK_CONNECTION_EVENT", t);
    }
  }

  /** The events of a line come in the order the parser tests their types. */
  lemma EventsStampedOrder(line: string, stamp: string)
    ensures var events := EventsStamped(line, stamp);
            forall i, j :: 0 <= i < j < |events| ==> EventRank(events[i].eventType) < EventRank(events[j].eventType)
  {
    var a := EventIf(line, stamp, Contains(line, " WIFI_ENABLED "), "WIFI_ENABLED");
    var b := EventIf(line, stamp, Contains(line, " CONNECT_NETWORK "), "CONNECT_NETWORK");
    var c := EventIf(line, stamp, Contains(line, " NETWORK_CONNECTION_EVENT "), "NETWORK_CONNECTION_EVENT");
    var events := EventsStamped(line, stamp);
    assert events == a + b + c;
    forall i, j | 0 <= i < j < |events|
      ensures EventRank(events[i].eventType) < EventRank(events[j].eventType)
    {
      if i < |a| {
        assert events[i] == a[i] && j >= |a|;
        if j < |a| + |b| {
          assert events[j] == b[j - |a|];
        } else {
          assert events[j] == c[j - |a| - |b|];
        }
      } else if i < |a| + |b| {
        assert events[i] == b[i - |a|] && j >= |a| + |b|;
        assert events[j] == c[j - |a| - |b|];
      } else {
        assert false;
      }
    }
  }

  /** The events of a line carry the time stamp `extractTimestamp` reads from it. */
  lemma EventsOfSpec(line: string)
    ensures forall e :: e in EventsOf(line) ==> IsEventType(e.eventType) && e.details == line
                                                && e.timestamp == ExtractTimestamp(line)
  {
    EventsStampedFields(line, ExtractTimestamp(line));
  }

  function EventSection(): Section<WifiEvent>
  {
    Section((l: string) => Contains(l, "StaEventList:"), (l: string) => Contains(l, "UserActionEvents:"), EventsOf,
            (l: string) => false)
  }

  /** The three tests `parseEventHistory` makes on a line inside the section. */
  method ReadEventLine(line: string) returns (events: seq<WifiEvent>)
    ensures events == EventsOf(line)
  {
    var stamp := ExtractTimestamp(line);
    events := [];
    if Contains(line, " WIFI_ENABLED ") {
      events := events + [WifiEvent(stamp, "WIFI_ENABLED", Contains(line, "screenOn=true"), line)];
    }
    if Contains(line, " CONNECT_NETWORK ") {
      events := events + [WifiEvent(stamp, "CONNECT_NETWORK", Contains(line, "screenOn=true"), line)];
    }
    if Contains(line, " NETWORK_CONNECTION_EVENT ") {
      events := events + [WifiEvent(stamp, "NETWORK_CONNECTION_EVENT", Contains(line, "screenOn=true"), line)];
    }
  }

  /** `parseEventHistory`. */
  method ParseEventHistory(lines: seq<string>) returns (events: seq<WifiEvent>)
    ensures events == SectionOf(EventSection(), lines, |lines|).items
  {
    ghost var sec := EventSection();
    events := [];
    var inSection := false;
    var i := 0;
    while i < |lines|
      invariant i <= |lines|
      invariant SectionOf(sec, lines, i) == SectionScan(events, inSection, false)
    {
      var line := lines[i];
      if Contains(line, "StaEventList:") {
        inSection := true;
        i := i + 1;
        continue;
      }
      if inSection && Contains(line, "UserActionEvents:") {
        DoneStays(sec, lines, i + 1, |lines|);
        break;
      }
      if inSection {
        var lineEvents := ReadEventLine(line);
        events := events + lineEvents;
      }
      i := i + 1;
    }
  }

  /** The events are those of the lines after the first `StaEventList:` line up to the first
      following `UserActionEvents:` line, and each is an event of a known type read from a line of the
      input, which it carries whole. */
  lemma EventHistorySpec(lines: seq<string>)
    ensures var h := SectionOf(EventSection(), lines, |lines|).items;
            h == SectionItems(EventSection(), lines)
            && forall e :: e in h ==> IsEventType(e.eventType) && e.details in lines
  {
    var sec := EventSection();
    SectionSpec(sec, lines);
    ItemsComeFromLines(sec, lines, |lines|);
    var h := SectionOf(sec, lines, |lines|).items;
    forall e | e in h
      ensures IsEventType(e.eventType) && e.details in lines
    {
      var k :| 0 <= k < |lines| && e in sec.emit(lines[k]);
      EventsOfSpec(lines[k]);
    }
  }

  // ----- The whole dump -----

  function WifiDumpOf(dump: string): WifiDumpData
  {
    var lines := Split(dump, "\n");
    WifiDumpData(
      ExtractLogLevel(lines), ExtractAirplaneMode(lines), ExtractWifiEnabled(lines),
      ExtractCurState(lines, "EnabledState"), TrimmedAfterMarker(lines, "current StateMachine mode:"),
      ExtractCurState(lines, "L3ConnectedState"), ExtractCurState(lines, "CompletedState"),
      ExtractInterfaceName(lines), FirstLineSaysTrue(lines, "mIfaceIsUp:"), TrimmedAfterMarker(lines, "mRole:"),
      WifiInfoField(lines, SsidPattern, "Not Connected"),
      WifiInfoField(lines, KeyedRun("BSSID: ", Not(Chars(","))), "Not Connected"),
      WifiInfoField(lines, KeyedRun("MAC: ", Not(Chars(","))), "Unknown"),
      ExtractSecurityType(lines), ExtractWifiStandard(lines),
      WifiInfoField(lines, RssiPattern, "Unknown"),
      WifiInfoField(lines, DigitsWithUnit("Link speed", "Mbps"), "Unknown"),
      WifiInfoField(lines, DigitsWithUnit("Tx Link speed", "Mbps"), "Unknown"),
      WifiInfoField(lines, DigitsWithUnit("Rx Link speed", "Mbps"), "Unknown"),
      WifiInfoField(lines, DigitsWithUnit("Frequency", "MHz"), "Unknown"),
      WifiInfoField(lines, KeyedRun("Net ID: ", Digit), "Unknown"),
      WifiInfoField(lines, KeyedRun("score: ", Digit), "Unknown"),
      ExtractIpAddress(lines), ExtractGateway(lines), ExtractDnsServers(lines), ExtractDhcpLeaseDuration(lines),
      FirstLineSaysTrue(lines, "STA + STA Concurrency Supported:"), FirstLineSaysTrue(lines, "STA + AP Concurrency Supported:"),
      SectionOf(HistorySection("WifiController:", "WifiController"), lines, |lines|).items,
      SectionOf(HistorySection("WifiClientModeManager:", "ClientModeManager"), lines, |lines|).items,
      SectionOf(HistorySection("SupplicantStateTracker:", "SupplicantStateTracker"), lines, |lines|).items,
      SectionOf(ScoreSection(), lines, |lines|).items,
      SectionOf(EventSection(), lines, |lines|).items)
  }

  /** `parseWifiDump`. */
  method ParseWifiDump(dump: string) returns (data: WifiDumpData)
    ensures data == WifiDumpOf(dump)
  {
    var lines := Split(dump, "\n");
    var controller := ParseStateHistory(lines, "WifiController:", "WifiController");
    var clientMode := ParseStateHistory(lines, "WifiClientModeManager:", "ClientModeManager");
    var supplicant := ParseStateHistory(lines, "SupplicantStateTracker:", "SupplicantStateTracker");
    var scores := ParseScoreReports(lines);
    var events := ParseEventHistory(lines);
    data := WifiDumpOf(dump).(controllerHistory := controller, clientModeHistory := clientMode,
                              supplicantHistory := supplicant, scoreReports := scores, eventHistory := events);
  }
}
