/** Reads the policy routing rules (`ip rule show`) and the route tables they name
    (`ip route show table <n>`) into `RouteDumpData`. The command runner is a parameter: a rule
    text, and a function from a table number to the text its route query returns. */
module RouteParser {
  import opened Text
  import opened Patterns
  import opened RouteDumpModel

  // ----- the fields of a rule line -----

  /** `^(\d+):` */
  const PriorityPattern: Pattern := [Start, Group(1, [Plus(Digit)]), Lit(":")]

  /** `from ([^\s]+(?:\s+[^\s]+)*)` */
  const FromPattern: Pattern :=
    [Lit("from "), Group(1, [Plus(NonSpace), Star([Plus(Space), Plus(NonSpace)])])]

  /** `fwmark ([^\s]+(?:/[^\s]+)?)` */
  const FwmarkPattern: Pattern :=
    [Lit("fwmark "), Group(1, [Plus(NonSpace), Opt([Lit("/"), Plus(NonSpace)])])]

  /** `lookup ([^\s]+)` */
  const LookupPattern: Pattern := KeyedRun("lookup ", NonSpace)

  function Priority(line: string): string
  {
    StringOr(FindGroup(PriorityPattern, line, 1), "")
  }

  function FromSource(line: string): string
  {
    StringOr(FindGroup(FromPattern, line, 1), "")
  }

  function Fwmark(line: string): string
  {
    StringOr(FindGroup(FwmarkPattern, line, 1), "")
  }

  function Lookup(line: string): string
  {
    StringOr(FindGroup(LookupPattern, line, 1), "")
  }

  /** The priority is the run of digits that starts the line when a colon follows it, else "". */
  lemma PrioritySpec(line: string)
    ensures var n := RunLength(line, 0, Digit, None);
            Priority(line) == (if n >= 1 && OccursAt(line, ":", n) then line[..n] else "")
  {
    var pat := PriorityPattern;
    var rest := [Group(1, [Plus(Digit)]), Lit(":")];
    assert pat[0] == Start && pat[1..] == rest;
    assert Match(pat, line, 0, map[]) == Match(rest, line, 0, map[]);
    MatchRunThen(Digit, ":", line, 0);
    FindFromSpec(pat, line, 0);
    var f := Find(pat, line);
    if f.Some? {
      assert f.value.start == 0;
    }
  }

  /** `fwmark ([^\s]+(?:/[^\s]+)?)` matches exactly where `fwmark ([^\s]+)` does, with the same
      group: the run of non-space characters already takes every `/`, so the optional part never
      adds anything. */
  lemma MatchFwmark(s: string, p: nat)
    requires p <= |s|
    ensures Match(FwmarkPattern, s, p, map[]) == Match(KeyedRun("fwmark ", NonSpace), s, p, map[])
  {
    var key := "fwmark ";
    var opt := Opt([Lit("/"), Plus(NonSpace)]);
    var keyed := KeyedRun(key, NonSpace);
    assert FwmarkPattern[0] == Lit(key) && keyed[0] == Lit(key);
    assert FwmarkPattern[1..] == [Group(1, [Plus(NonSpace), opt])];
    assert keyed[1..] == [Group(1, [Plus(NonSpace)])];
    if OccursAt(s, key, p) {
      var q := p + |key|;
      var close := [Close(1, q)];
      assert [Group(1, [Plus(NonSpace), opt])][1..] == [];
      assert [Group(1, [Plus(NonSpace)])][1..] == [];
      var withOpt := [Plus(NonSpace), opt] + (close + []);
      var plain := [Plus(NonSpace)] + (close + []);
      assert Match(FwmarkPattern, s, p, map[]) == Match(withOpt, s, q, map[]);
      assert Match(keyed, s, p, map[]) == Match(plain, s, q, map[]);
      assert withOpt[0] == Plus(NonSpace) && withOpt[1..] == [opt, Close(1, q)];
      assert plain[0] == Plus(NonSpace) && plain[1..] == close;
      var n := RunLength(s, q, NonSpace, None);
      if n >= 1 {
        assert close[1..] == [];
        var done := Some(State(q + n, map[1 := s[q..q + n]]));
        assert Match(close, s, q + n, map[]) == done;
        var slash := [Lit("/"), Plus(NonSpace)] + [Close(1, q)];
        assert slash[0] == Lit("/");
        if q + n < |s| {
          assert !InClass(s[q + n], NonSpace);
          assert InClass(s[q + n], Space);
          assert IsRegexSpace(s[q + n]);
          assert !IsRegexSpace('/');
          assert s[q + n..q + n + 1][0] == s[q + n];
        }
        assert !OccursAt(s, "/", q + n);
        assert Match(slash, s, q + n, map[]).None?;
        assert [opt, Close(1, q)][1..] == close;
        assert Match([opt, Close(1, q)], s, q + n, map[]) == done;
        assert Longest([opt, Close(1, q)], s, q, 1, n, map[]) == done;
        assert Longest(close, s, q, 1, n, map[]) == done;
      }
    }
  }

  lemma {:induction false} FindFwmarkFrom(s: string, from: nat)
    requires from <= |s|
    ensures FindFrom(FwmarkPattern, s, from) == FindFrom(KeyedRun("fwmark ", NonSpace), s, from)
    decreases |s| - from
  {
    MatchFwmark(s, from);
    if from < |s| {
      FindFwmarkFrom(s, from + 1);
    }
  }

  /** The fwmark is the run of non-space characters after the first `fwmark ` that has one, else "". */
  lemma FwmarkSpec(line: string)
    ensures Fwmark(line) == StringOr(KeyedValue(line, "fwmark ", NonSpace), "")
  {
    FindFwmarkFrom(line, 0);
    FindKeyedRun("fwmark ", NonSpace, line);
  }

  /** The lookup table is the run of non-space characters after the first `lookup ` that has one,
      else "". */
  lemma LookupSpec(line: string)
    ensures Lookup(line) == StringOr(KeyedValue(line, "lookup ", NonSpace), "")
    ensures Lookup(line) == "" || RunOf(Lookup(line), NonSpace)
  {
    FindKeyedRun("lookup ", NonSpace, line);
  }

  /** The end of the last character of `s` that is not a regex space, or 0 when there is none. */
  function LastNonSpaceEnd(s: string): (e: nat)
    ensures e <= |s|
    ensures forall j :: e <= j < |s| ==> IsRegexSpace(s[j])
    ensures e > 0 ==> !IsRegexSpace(s[e - 1])
  {
    if |s| == 0 then 0
    else if IsRegexSpace(s[|s| - 1]) then LastNonSpaceEnd(s[..|s| - 1])
    else |s|
  }

  lemma NonSpaceIff(c: char)
    ensures InClass(c, NonSpace) <==> !IsRegexSpace(c)
  {
  }

  /** `\s+[^\s]+` once. */
  const SpacedWord: Pattern := [Plus(Space), Plus(NonSpace)]

  /** Backing off inside a run of spaces that ends the text leaves no room for a word. */
  lemma {:induction false} LongestInTrailingSpaces(s: string, e: nat, m: nat, g: map<nat, string>)
    requires 1 <= m && e + m <= |s|
    requires forall j :: e <= j < |s| ==> IsRegexSpace(s[j])
    ensures Longest([Plus(NonSpace)], s, e, 1, m, g).None?
    decreases m
  {
    var rest := [Plus(NonSpace)];
    assert rest[0] == Run(NonSpace, 1, None, false);
    if e + m < |s| {
      assert !InClass(s[e + m], NonSpace);
    }
    assert RunLength(s, e + m, NonSpace, None) == 0;
    assert Match(rest, s, e + m, g).None?;
    if m > 1 {
      LongestInTrailingSpaces(s, e, m - 1, g);
    }
  }

  /** `\s+[^\s]+` at `e`: a run of spaces, then a word; both runs are taken whole. */
  lemma MatchSpacedWord(s: string, e: nat, g: map<nat, string>)
    requires e <= |s|
    ensures var n1 := RunLength(s, e, Space, None);
            var n2 := RunLength(s, e + n1, NonSpace, None);
            Match(SpacedWord, s, e, g) == if n1 >= 1 && n2 >= 1 then Some(State(e + n1 + n2, g)) else None
  {
    var n1 := RunLength(s, e, Space, None);
    assert SpacedWord[0] == Run(Space, 1, None, false);
    assert SpacedWord[1..] == [Plus(NonSpace)];
    if n1 >= 1 {
      var n2 := RunLength(s, e + n1, NonSpace, None);
      assert Match(SpacedWord, s, e, g) == Longest([Plus(NonSpace)], s, e, 1, n1, g);
      MatchPlusEnd(NonSpace, s, e + n1, g);
      if n2 == 0 {
        assert e + n1 == |s|;
        LongestInTrailingSpaces(s, e, n1, g);
      }
    }
  }

  /** At the end of a word, `\s+[^\s]+` either takes the next word, which ends no later than the
      last word of the text, or fails because only spaces are left. */
  lemma NextWord(s: string, e: nat, g: map<nat, string>) returns (e2: nat)
    requires e <= LastNonSpaceEnd(s)
    requires e < |s| ==> IsRegexSpace(s[e])
    ensures Match(SpacedWord, s, e, g).None? <==> e == LastNonSpaceEnd(s)
    ensures Match(SpacedWord, s, e, g).Some? ==>
              Match(SpacedWord, s, e, g) == Some(State(e2, g)) && e < e2 <= LastNonSpaceEnd(s)
              && (e2 < |s| ==> IsRegexSpace(s[e2]))
  {
    var L := LastNonSpaceEnd(s);
    var n1 := RunLength(s, e, Space, None);
    var n2 := RunLength(s, e + n1, NonSpace, None);
    MatchSpacedWord(s, e, g);
    e2 := e + n1 + n2;
    if n1 >= 1 && n2 >= 1 {
      NonSpaceIff(s[e2 - 1]);
      if e2 < |s| {
        NonSpaceIff(s[e2]);
      }
    } else if n1 >= 1 {
      assert e + n1 == |s|;
    } else {
      assert e == |s|;
    }
  }

  /** `(?:\s+[^\s]+)*` after a word: every further word, so the repetition stops at the end of the
      last word of the text. */
  lemma {:induction false} RepeatSpacedWords(s: string, e: nat, g: map<nat, string>)
    requires e <= LastNonSpaceEnd(s)
    requires e < |s| ==> IsRegexSpace(s[e])
    ensures Repeat(SpacedWord, s, e, g) == State(LastNonSpaceEnd(s), g)
    decreases |s| - e
  {
    var e2 := NextWord(s, e, g);
    if Match(SpacedWord, s, e, g).Some? {
      RepeatOnce(SpacedWord, s, e, g, State(e2, g));
      RepeatSpacedWords(s, e2, g);
    } else {
      RepeatStops(SpacedWord, s, e, g);
    }
  }

  /** The repetition and then the close of group 1 opened at `q`: the group runs to the end of the
      last word of the text. */
  lemma MatchWordsClose(s: string, q: nat, e: nat, g: map<nat, string>)
    requires q <= e <= LastNonSpaceEnd(s)
    requires e < |s| ==> IsRegexSpace(s[e])
    ensures Match([Star(SpacedWord), Close(1, q)], s, e, g) ==
              Some(State(LastNonSpaceEnd(s), g[1 := s[q..LastNonSpaceEnd(s)]]))
  {
    var after := [Star(SpacedWord), Close(1, q)];
    assert after[0] == Star(SpacedWord) && after[1..] == [Close(1, q)];
    assert [Close(1, q)][1..] == [];
    var L := LastNonSpaceEnd(s);
    RepeatSpacedWords(s, e, g);
    assert Match(after, s, e, g) == Match([Close(1, q)], s, L, g);
    assert Match([Close(1, q)], s, L, g) == Match([], s, L, g[1 := s[q..L]]);
  }

  /** `([^\s]+(?:\s+[^\s]+)*)` at `q`: a word, and then every further word of the text. */
  lemma MatchWords(s: string, q: nat, g: map<nat, string>)
    requires q <= |s|
    ensures var n := RunLength(s, q, NonSpace, None);
            Match([Group(1, [Plus(NonSpace), Star(SpacedWord)])], s, q, g) ==
              if n >= 1 then Some(State(LastNonSpaceEnd(s), g[1 := s[q..LastNonSpaceEnd(s)]])) else None
    ensures RunLength(s, q, NonSpace, None) >= 1 ==> q < LastNonSpaceEnd(s)
  {
    var body := [Plus(NonSpace), Star(SpacedWord)];
    MatchSoleGroup(1, body, s, q, g);
    var items := body + [Close(1, q)];
    assert items[0] == Run(NonSpace, 1, None, false);
    var after := [Star(SpacedWord), Close(1, q)];
    assert items[1..] == after;
    var n := RunLength(s, q, NonSpace, None);
    if n >= 1 {
      NonSpaceIff(s[q + n - 1]);
      if q + n < |s| {
        NonSpaceIff(s[q + n]);
      }
      MatchWordsClose(s, q, q + n, g);
      assert Match(items, s, q, g) == Longest(after, s, q, 1, n, g);
    }
  }

  /** Where `from ([^\s]+(?:\s+[^\s]+)*)` matches, and what it captures: from the first word after
      `from ` to the end of the last word of the line. */
  lemma MatchFrom(s: string, p: nat)
    requires p <= |s|
    ensures var r := Match(FromPattern, s, p, map[]);
            (r.Some? <==> KeyedAt(s, "from ", NonSpace, p))
            && (r.Some? ==> r.value.groups == map[1 := FromValue(s, p)])
  {
    var g: map<nat, string> := map[];
    var key := "from ";
    assert FromPattern[0] == Lit(key) && FromPattern[1..] == [Group(1, [Plus(NonSpace), Star(SpacedWord)])];
    if OccursAt(s, key, p) {
      var q := p + 5;
      assert Match(FromPattern, s, p, g) == Match([Group(1, [Plus(NonSpace), Star(SpacedWord)])], s, q, g);
      MatchWords(s, q, g);
      if q < |s| {
        assert RunLength(s, q, NonSpace, None) >= 1 <==> InClass(s[q], NonSpace);
      }
    }
  }

  /** The first position where `from ` is followed by a word. */
  function FirstFrom(line: string): Option<nat>
  {
    FirstAt((q: nat) => KeyedAt(line, "from ", NonSpace, q), 0, |line|)
  }

  /** `Regex(...).find(line)` reports the source at the first `from ` followed by a word. */
  lemma FindFromSource(line: string)
    ensures var f := Find(FromPattern, line);
            var p := FirstFrom(line);
            (f.Some? <==> p.Some?) && (p.Some? ==> GroupValue(f.value, 1) == FromValue(line, p.value))
  {
    forall q | 0 <= q <= |line|
      ensures Match(FromPattern, line, q, map[]).Some? <==> KeyedAt(line, "from ", NonSpace, q)
      ensures KeyedAt(line, "from ", NonSpace, q) ==>
                Match(FromPattern, line, q, map[]).value.groups == map[1 := FromValue(line, q)]
    {
      MatchFrom(line, q);
    }
    FindAt(FromPattern, line, 0, (q: nat) => KeyedAt(line, "from ", NonSpace, q), (q: nat) => FromValue(line, q));
  }

  /** The source is the text from the first word after the first `from ` that has one to the end of
      the last word of the line; "" without such a `from `. */
  lemma FromSourceSpec(line: string)
    ensures FromSource(line) != "" ==> Contains(line, "from ")
    ensures FirstFrom(line).None? ==> FromSource(line) == ""
    ensures forall p :: FirstFrom(line) == Some(p) ==> FromSource(line) == line[p + 5..LastNonSpaceEnd(line)]
  {
    if !Contains(line, "from ") {
      assert FromPattern == [Lit("from ")] + FromPattern[1..];
      FindWithoutLit("from ", FromPattern[1..], line);
    }
    FindFromSource(line);
  }

  /** What `from ...` captures when it matches at `p`. */
  function FromValue(s: string, p: nat): string
  {
    if p + 5 <= LastNonSpaceEnd(s) then s[p + 5..LastNonSpaceEnd(s)] else ""
  }

  // ----- rule types -----

  function RuleTypeOf(line: string): RuleType
  {
    if Contains(line, "from all") then FROM_ALL
    else if Contains(line, "from") then FROM_SPECIFIC
    else if Contains(line, "fwmark") then FWMARK
    else if Contains(line, "iif") then IIF
    else if Contains(line, "oif") then OIF
    else if Contains(line, "lookup") then LOOKUP
    else if Contains(line, "goto") then GOTO
    else UNKNOWN
  }

  /** The two `from` kinds are exactly the lines that mention `from`, `from all` deciding between
      them, and a rule is of unknown kind exactly when it mentions none of the keywords checked. */
  lemma RuleTypeSpec(line: string)
    ensures var r := RuleTypeOf(line);
            && (r == FROM_ALL <==> Contains(line, "from all"))
            && (r == FROM_ALL || r == FROM_SPECIFIC <==> Contains(line, "from"))
            && (r == UNKNOWN <==>
                  !Contains(line, "from") && !Contains(line, "fwmark") && !Contains(line, "iif")
                  && !Contains(line, "oif") && !Contains(line, "lookup") && !Contains(line, "goto"))
  {
    if Contains(line, "from all") {
      assert "from all" == "from" + " all";
      ContainsPrefixOf(line, "from", " all");
    }
  }

  // ----- route types -----

  function RouteTypeOf(destination: string, line: string): RouteType
  {
    if destination == "default" then DEFAULT
    else if Contains(destination, "local") then LOCAL
    else if Contains(destination, "broadcast") then BROADCAST
    else if Contains(line, "blackhole") then BLACKHOLE
    else if Contains(line, "unreachable") then UNREACHABLE
    else if Contains(line, "prohibit") then PROHIBIT
    else UNICAST
  }

  /** The destination decides first (`default`, then `local`, then `broadcast`), the line only after
      it; no route is ever classed `MULTICAST`. */
  lemma RouteTypeSpec(destination: string, line: string)
    ensures var r := RouteTypeOf(destination, line);
            && r != MULTICAST
            && (r == DEFAULT <==> destination == "default")
            && (r == LOCAL <==> destination != "default" && Contains(destination, "local"))
            && (r == BROADCAST <==>
                  destination != "default" && !Contains(destination, "local") && Contains(destination, "broadcast"))
            && (r in {BLACKHOLE, UNREACHABLE, PROHIBIT, UNICAST} <==>
                  destination != "default" && !Contains(destination, "local") && !Contains(destination, "broadcast"))
            && (r == UNICAST <==>
                  RouteTypeOf(destination, "") == UNICAST
                  && !Contains(line, "blackhole") && !Contains(line, "unreachable") && !Contains(line, "prohibit"))
  {
    var empty: string := "";
    assert !Contains(empty, "blackhole") && !Contains(empty, "unreachable") && !Contains(empty, "prohibit");
  }

  // ----- table names -----

  function TableName(tableNumber: string): string
  {
    if tableNumber == "254" || tableNumber == "main" then "main"
    else if tableNumber == "255" || tableNumber == "local" then "local"
    else if tableNumber == "253" || tableNumber == "default" then "default"
    else "table_" + tableNumber
  }

  /** Each reserved name stands for its number and its name and for nothing else; any other table
      is `table_<n>`, so different other tables get different names. */
  lemma TableNameSpec(n: string, m: string)
    ensures TableName(n) == "main" <==> n == "254" || n == "main"
    ensures TableName(n) == "local" <==> n == "255" || n == "local"
    ensures TableName(n) == "default" <==> n == "253" || n == "default"
    ensures TableName(n) !in {"main", "local", "default"} ==> TableName(n) == "table_" + n
    ensures TableName(n) == TableName(m) && n != m ==> TableName(n) in {"main", "local", "default"}
  {
    var t := "table_" + n;
    assert t[0] == 't';
    assert "main"[0] == 'm' && "local"[0] == 'l' && "default"[0] == 'd';
    var u := "table_" + m;
    assert u[0] == 't';
    assert t[6..] == n && u[6..] == m;
  }

  // ----- descriptions -----

  function RuleDescription(line: string, ruleType: RuleType, fromSource: string, fwmark: string, lookup: string)
    : string
  {
    match ruleType
    case FROM_ALL => "匹配所有源地址的数据包，查找路由表 " + lookup
    case FROM_SPECIFIC => "匹配来自 " + fromSource + " 的数据包，查找路由表 " + lookup
    case FWMARK => "匹配带有防火墙标记 " + fwmark + " 的数据包，通常用于策略路由或VPN"
    case LOOKUP => "查找指定路由表 " + lookup + " 中的路由规则"
    case IIF => "匹配从指定输入接口进入的数据包"
    case OIF => "匹配从指定输出接口发出的数据包"
    case GOTO => "跳转到指定的规则链"
    case UNKNOWN => "未识别的路由规则类型"
  }

  /** A rule's description names the table it looks up, the source it matches and the mark it
      tests, for the kinds that have them. */
  lemma RuleDescriptionNames(line: string, ruleType: RuleType, fromSource: string, fwmark: string, lookup: string)
    ensures var d := RuleDescription(line, ruleType, fromSource, fwmark, lookup);
            && (ruleType in {FROM_ALL, FROM_SPECIFIC, LOOKUP} ==> Contains(d, lookup))
            && (ruleType == FROM_SPECIFIC ==> Contains(d, fromSource))
            && (ruleType == FWMARK ==> Contains(d, fwmark))
  {
    var d := RuleDescription(line, ruleType, fromSource, fwmark, lookup);
    match ruleType
    case FROM_ALL =>
      ContainsInside("匹配所有源地址的数据包，查找路由表 ", lookup, "");
      assert d == "匹配所有源地址的数据包，查找路由表 " + lookup + "";
    case FROM_SPECIFIC =>
      var a := "匹配来自 " + fromSource + " 的数据包，查找路由表 ";
      ContainsInside(a, lookup, "");
      assert d == a + lookup + "";
      ContainsInside("匹配来自 ", fromSource, " 的数据包，查找路由表 " + lookup);
      assert d == "匹配来自 " + fromSource + (" 的数据包，查找路由表 " + lookup);
    case FWMARK =>
      ContainsInside("匹配带有防火墙标记 ", fwmark, " 的数据包，通常用于策略路由或VPN");
    case LOOKUP =>
      ContainsInside("查找指定路由表 ", lookup, " 中的路由规则");
    case IIF =>
    case OIF =>
    case GOTO =>
    case UNKNOWN =>
  }

  function RouteDescription(destination: string, gateway: string, device: string, scope: string,
                            protocol: string, routeType: RouteType): string
  {
    match routeType
    case DEFAULT => "默认路由：所有未匹配的数据包通过网关 " + gateway + (" 从接口 " + device + " 发出")
    case LOCAL => "本地路由：访问本机地址 " + destination + " 的路由"
    case UNICAST =>
      if !IsBlank(gateway) then "单播路由：访问 " + destination + (" 网段通过网关 " + gateway + " 从接口 " + device + " 发出")
      else "直连路由：" + destination + (" 网段可直接通过接口 " + device + " 访问")
    case BROADCAST => "广播路由：用于 " + destination + " 的广播通信"
    case BLACKHOLE => "黑洞路由：发往 " + destination + " 的数据包将被丢弃"
    case UNREACHABLE => "不可达路由：发往 " + destination + " 的数据包返回网络不可达错误"
    case PROHIBIT => "禁止路由：发往 " + destination + " 的数据包返回通信被管理性禁止错误"
    case MULTICAST => "标准路由规则"
  }

  /** A route's description names its gateway and device when it is a default route, and its
      destination for every kind the parser assigns but `DEFAULT`. */
  lemma RouteDescriptionNames(destination: string, gateway: string, device: string, scope: string,
                              protocol: string, routeType: RouteType)
    ensures var d := RouteDescription(destination, gateway, device, scope, protocol, routeType);
            && (routeType == DEFAULT ==> Contains(d, gateway) && Contains(d, device))
            && (routeType !in {DEFAULT, MULTICAST} ==> Contains(d, destination))
  {
    match routeType
    case DEFAULT =>
      DefaultRouteDescriptionNames(gateway, device);
    case LOCAL =>
      ContainsInside("本地路由：访问本机地址 ", destination, " 的路由");
    case UNICAST =>
      if !IsBlank(gateway) {
        ContainsInside("单播路由：访问 ", destination, " 网段通过网关 " + gateway + " 从接口 " + device + " 发出");
      } else {
        ContainsInside("直连路由：", destination, " 网段可直接通过接口 " + device + " 访问");
      }
    case BROADCAST =>
      ContainsInside("广播路由：用于 ", destination, " 的广播通信");
    case BLACKHOLE =>
      ContainsInside("黑洞路由：发往 ", destination, " 的数据包将被丢弃");
    case UNREACHABLE =>
      ContainsInside("不可达路由：发往 ", destination, " 的数据包返回网络不可达错误");
    case PROHIBIT =>
      ContainsInside("禁止路由：发往 ", destination, " 的数据包返回通信被管理性禁止错误");
    case MULTICAST =>
  }

  lemma DefaultRouteDescriptionNames(gateway: string, device: string)
    ensures var d := "默认路由：所有未匹配的数据包通过网关 " + gateway + (" 从接口 " + device + " 发出");
            Contains(d, gateway) && Contains(d, device)
  {
    var a := "默认路由：所有未匹配的数据包通过网关 ";
    ContainsInside(a, gateway, " 从接口 " + device + " 发出");
    ContainsInside(a + gateway + " 从接口 ", device, " 发出");
    assert a + gateway + (" 从接口 " + device + " 发出") == a + gateway + " 从接口 " + device + " 发出";
  }

  /** Kotlin `routes.count { it.routeType == t }`. */
  function CountOfType(routes: seq<RouteEntry>, t: RouteType): (c: nat)
    ensures c <= |routes|
  {
    if |routes| == 0 then 0
    else CountOfType(routes[..|routes| - 1], t) + (if routes[|routes| - 1].routeType == t then 1 else 0)
  }

  /** `tableNumber.toIntOrNull()?.let { it > 1000 } == true`. */
  predicate IsCustomTable(tableNumber: string)
  {
    ToIntOrNull(tableNumber).Some? && ToIntOrNull(tableNumber).value > 1000
  }

  function TableDescription(tableNumber: string, routes: seq<RouteEntry>): string
  {
    var size := NatToString(|routes|);
    if tableNumber == "254" || tableNumber == "main" then
      "主路由表：包含系统的主要路由规则，共 " + size
        + (" 条路由（默认路由: " + NatToString(CountOfType(routes, DEFAULT))
           + ", 单播: " + NatToString(CountOfType(routes, UNICAST)) + "）")
    else if tableNumber == "255" || tableNumber == "local" then
      "本地路由表：包含本机地址和广播地址的路由，共 " + size
        + (" 条路由（本地路由: " + NatToString(CountOfType(routes, LOCAL)) + "）")
    else if tableNumber == "253" || tableNumber == "default" then
      "默认路由表：系统默认路由表，共 " + size + " 条路由"
    else if IsCustomTable(tableNumber) then
      "自定义路由表 " + tableNumber + "：可能用于VPN、策略路由或应用专用网络，共 " + size + " 条路由"
    else
      "路由表 " + tableNumber + "：共 " + size + " 条路由规则"
  }

  /** Every table description states how many routes the table has. */
  lemma TableDescriptionCounts(tableNumber: string, routes: seq<RouteEntry>)
    ensures Contains(TableDescription(tableNumber, routes), NatToString(|routes|))
  {
    var size := NatToString(|routes|);
    if tableNumber == "254" || tableNumber == "main" {
      ContainsInside("主路由表：包含系统的主要路由规则，共 ", size,
                     " 条路由（默认路由: " + NatToString(CountOfType(routes, DEFAULT))
                     + ", 单播: " + NatToString(CountOfType(routes, UNICAST)) + "）");
    } else if tableNumber == "255" || tableNumber == "local" {
      ContainsInside("本地路由表：包含本机地址和广播地址的路由，共 ", size,
                     " 条路由（本地路由: " + NatToString(CountOfType(routes, LOCAL)) + "）");
    } else if tableNumber == "253" || tableNumber == "default" {
      ContainsInside("默认路由表：系统默认路由表，共 ", size, " 条路由");
    } else if IsCustomTable(tableNumber) {
      var a := "自定义路由表 " + tableNumber + "：可能用于VPN、策略路由或应用专用网络，共 ";
      ContainsInside(a, size, " 条路由");
    } else {
      ContainsInside("路由表 " + tableNumber + "：共 ", size, " 条路由规则");
    }
  }

  // ----- one rule line -----

  /** `if (lookup.isNotBlank()) lookup else ""`. */
  function TableNumberOf(lookup: string): string
  {
    if !IsBlank(lookup) then lookup else ""
  }

  /** `parseIpRuleLine` on a trimmed line; it never fails. */
  function IpRuleOf(line: string): IpRule
  {
    var fromSource := FromSource(line);
    var fwmark := Fwmark(line);
    var lookup := Lookup(line);
    var ruleType := RuleTypeOf(line);
    IpRule(Priority(line), fromSource, fwmark, lookup, TableNumberOf(lookup), line, ruleType,
           RuleDescription(line, ruleType, fromSource, fwmark, lookup))
  }

  /** The table a rule names is its lookup value, unless that value is blank (it can be only when
      it is made of characters Kotlin counts as whitespace but `\s` does not), and a rule that
      names a source, a mark or a table is never of unknown kind. */
  lemma IpRuleSpec(line: string)
    ensures var rule := IpRuleOf(line);
            && rule.originalLine == line
            && rule.lookup == StringOr(KeyedValue(line, "lookup ", NonSpace), "")
            && (rule.tableNumber == rule.lookup || (rule.tableNumber == "" && IsBlank(rule.lookup)))
            && (rule.tableNumber == "" || !IsBlank(rule.tableNumber))
            && (rule.fromSource != "" ==> rule.ruleType in {FROM_ALL, FROM_SPECIFIC})
            && (rule.fwmark != "" ==> rule.ruleType in {FROM_ALL, FROM_SPECIFIC, FWMARK})
            && (rule.lookup != "" ==> rule.ruleType != UNKNOWN)
  {
    LookupSpec(line);
    FwmarkSpec(line);
    FromSourceSpec(line);
    RuleTypeSpec(line);
    if FromSource(line) != "" {
      assert "from " == "from" + " ";
      ContainsPrefixOf(line, "from", " ");
    }
    if Fwmark(line) != "" {
      var p := FirstKeyedFrom(line, "fwmark ", NonSpace, 0).value;
      assert OccursAt(line, "fwmark ", p);
      assert line[p..p + 6] == line[p..p + 7][..6] == "fwmark";
      assert OccursAt(line, "fwmark", p);
      ContainsIff(line, "fwmark");
    }
    if Lookup(line) != "" {
      var p := FirstKeyedFrom(line, "lookup ", NonSpace, 0).value;
      assert OccursAt(line, "lookup ", p);
      assert line[p..p + 6] == line[p..p + 7][..6] == "lookup";
      assert OccursAt(line, "lookup", p);
      ContainsIff(line, "lookup");
    }
  }

  // ----- one route line -----

  /** The six fields a route line's keywords set. */
  datatype RouteFields = RouteFields(gateway: string, device: string, scope: string, source: string,
                                     metric: string, protocol: string)

  const NoFields := RouteFields("", "", "", "", "", "")

  predicate IsRouteKeyword(w: string)
  {
    w == "via" || w == "dev" || w == "scope" || w == "src" || w == "metric" || w == "proto"
  }

  /** The field keyword `key` sets. */
  function FieldOf(f: RouteFields, key: string): string
  {
    if key == "via" then f.gateway
    else if key == "dev" then f.device
    else if key == "scope" then f.scope
    else if key == "src" then f.source
    else if key == "metric" then f.metric
    else if key == "proto" then f.protocol
    else ""
  }

  function SetField(f: RouteFields, key: string, v: string): RouteFields
  {
    if key == "via" then f.(gateway := v)
    else if key == "dev" then f.(device := v)
    else if key == "scope" then f.(scope := v)
    else if key == "src" then f.(source := v)
    else if key == "metric" then f.(metric := v)
    else if key == "proto" then f.(protocol := v)
    else f
  }

  /** Setting the field of `key2` changes that field and no other. */
  lemma FieldOfSet(f: RouteFields, key: string, key2: string, v: string)
    requires IsRouteKeyword(key) && IsRouteKeyword(key2)
    ensures FieldOf(SetField(f, key2, v), key) == if key == key2 then v else FieldOf(f, key)
  {
  }

  /** Where the scan of a route line goes after looking at token `i`: past the value of a keyword,
      else to the next token. */
  function NextToken(parts: seq<string>, i: nat): nat
    requires i < |parts|
  {
    if IsRouteKeyword(parts[i]) then i + 2 else i + 1
  }

  /** The loop of `parseRouteLine` from token `i` on, with the fields read so far. */
  function ScanRoute(parts: seq<string>, i: nat, f: RouteFields): RouteFields
    decreases |parts| - i
  {
    if i >= |parts| then f
    else if IsRouteKeyword(parts[i]) then
      ScanRoute(parts, i + 2, if i + 1 < |parts| then SetField(f, parts[i], parts[i + 1]) else f)
    else ScanRoute(parts, i + 1, f)
  }

  /** `parseRouteLine` on a trimmed line. `split(" ")` always gives at least one piece, so the
      source's `null` for no pieces cannot happen. */
  function RouteLineOf(line: string): RouteEntry
  {
    var parts := Split(line, " ");
    var destination := parts[0];
    var f := ScanRoute(parts, 1, NoFields);
    var routeType := RouteTypeOf(destination, line);
    RouteEntry(destination, f.gateway, f.device, f.scope, f.source, f.metric, f.protocol, line, routeType,
               RouteDescription(destination, f.gateway, f.device, f.scope, f.protocol, routeType))
  }

  /** `parseRouteLine`: a cursor over the space-separated tokens that jumps over the value of each
      keyword it meets. */
  method ParseRouteLine(line: string) returns (entry: RouteEntry)
    ensures entry == RouteLineOf(line)
  {
    var parts := Split(line, " ");
    var destination := parts[0];
    var gateway, device, scope, source, metric, protocol := "", "", "", "", "", "";
    var i := 1;
    while i < |parts|
      invariant 1 <= i <= |parts| + 1
      invariant ScanRoute(parts, i, RouteFields(gateway, device, scope, source, metric, protocol))
                == ScanRoute(parts, 1, NoFields)
      decreases |parts| + 1 - i
    {
      if parts[i] == "via" {
        if i + 1 < |parts| { gateway := parts[i + 1]; }
        i := i + 2;
      } else if parts[i] == "dev" {
        if i + 1 < |parts| { device := parts[i + 1]; }
        i := i + 2;
      } else if parts[i] == "scope" {
        if i + 1 < |parts| { scope := parts[i + 1]; }
        i := i + 2;
      } else if parts[i] == "src" {
        if i + 1 < |parts| { source := parts[i + 1]; }
        i := i + 2;
      } else if parts[i] == "metric" {
        if i + 1 < |parts| { metric := parts[i + 1]; }
        i := i + 2;
      } else if parts[i] == "proto" {
        if i + 1 < |parts| { protocol := parts[i + 1]; }
        i := i + 2;
      } else {
        i := i + 1;
      }
    }
    var routeType := RouteTypeOf(destination, line);
    entry := RouteEntry(destination, gateway, device, scope, source, metric, protocol, line, routeType,
                        RouteDescription(destination, gateway, device, scope, protocol, routeType));
  }

  /** The tokens the scan looks at from token `i` on: `i` itself, then each next position, up to the
      end of the line. */
  function Stops(parts: seq<string>, i: nat): (r: seq<nat>)
    ensures forall k :: 0 <= k < |r| ==> i <= r[k] < |parts|
    ensures i < |parts| <==> |r| > 0
    ensures |r| > 0 ==> r[0] == i && NextToken(parts, r[|r| - 1]) >= |parts|
    ensures forall k :: 0 <= k < |r| - 1 ==> r[k + 1] == NextToken(parts, r[k])
    decreases |parts| - i
  {
    if i >= |parts| then [] else [i] + Stops(parts, NextToken(parts, i))
  }

  /** Keyword `key` at token `p` sets its field: a value follows it. */
  predicate Sets(parts: seq<string>, p: nat, key: string)
  {
    p + 1 < |parts| && parts[p] == key
  }

  /** The reference reading of a route field: the token after the last stop where its keyword sets
      it, else `d`. */
  function LastSet(parts: seq<string>, stops: seq<nat>, key: string, d: string): string
  {
    if |stops| == 0 then d
    else if Sets(parts, stops[|stops| - 1], key) then parts[stops[|stops| - 1] + 1]
    else LastSet(parts, stops[..|stops| - 1], key, d)
  }

  /** Reading a field over `[i] + rest` is reading it over `rest`, starting from what stop `i` left. */
  lemma {:induction false} LastSetCons(parts: seq<string>, i: nat, rest: seq<nat>, key: string, d: string)
    ensures LastSet(parts, [i] + rest, key, d) == LastSet(parts, rest, key, LastSet(parts, [i], key, d))
    decreases |rest|
  {
    var all := [i] + rest;
    if |rest| == 0 {
      assert all == [i];
    } else {
      assert all[|all| - 1] == rest[|rest| - 1];
      assert all[..|all| - 1] == [i] + rest[..|rest| - 1];
      LastSetCons(parts, i, rest[..|rest| - 1], key, d);
    }
  }

  /** The scan leaves in each field what the reference reading gives. */
  lemma {:induction false} ScanRouteLastSet(parts: seq<string>, i: nat, f: RouteFields, key: string)
    requires IsRouteKeyword(key)
    ensures FieldOf(ScanRoute(parts, i, f), key) == LastSet(parts, Stops(parts, i), key, FieldOf(f, key))
    decreases |parts| - i
  {
    if i < |parts| {
      var j := NextToken(parts, i);
      var g := if IsRouteKeyword(parts[i]) && i + 1 < |parts| then SetField(f, parts[i], parts[i + 1]) else f;
      assert ScanRoute(parts, i, f) == ScanRoute(parts, j, g);
      ScanRouteLastSet(parts, j, g, key);
      assert [i][..0] == [];
      if IsRouteKeyword(parts[i]) && i + 1 < |parts| {
        FieldOfSet(f, key, parts[i], parts[i + 1]);
      }
      assert FieldOf(g, key) == LastSet(parts, [i], key, FieldOf(f, key));
      assert Stops(parts, i) == [i] + Stops(parts, j);
      LastSetCons(parts, i, Stops(parts, j), key, FieldOf(f, key));
    }
  }

  /** A field is `d` when no stop sets it; otherwise it is the value after the last stop that does,
      so a later keyword overwrites an earlier one and a keyword with no token after it changes
      nothing. */
  lemma {:induction false} LastSetSpec(parts: seq<string>, stops: seq<nat>, key: string, d: string)
    ensures var r := LastSet(parts, stops, key, d);
            (forall k :: 0 <= k < |stops| ==> !Sets(parts, stops[k], key)) ==> r == d
    ensures var r := LastSet(parts, stops, key, d);
            (exists k :: 0 <= k < |stops| && Sets(parts, stops[k], key)) ==>
              exists k :: 0 <= k < |stops| && Sets(parts, stops[k], key) && r == parts[stops[k] + 1]
                          && forall k2 :: k < k2 < |stops| ==> !Sets(parts, stops[k2], key)
    decreases |stops|
  {
    if |stops| > 0 {
      var last := |stops| - 1;
      var init := stops[..last];
      LastSetSpec(parts, init, key, d);
      if !Sets(parts, stops[last], key) {
        assert forall k :: 0 <= k < last ==> init[k] == stops[k];
        if exists k :: 0 <= k < |stops| && Sets(parts, stops[k], key) {
          var k0 :| 0 <= k0 < |stops| && Sets(parts, stops[k0], key);
          assert Sets(parts, init[k0], key);
          var k :| 0 <= k < |init| && Sets(parts, init[k], key) && LastSet(parts, init, key, d) == parts[init[k] + 1]
                   && forall k2 :: k < k2 < |init| ==> !Sets(parts, init[k2], key);
          assert Sets(parts, stops[k], key);
        }
      }
    }
  }

  /** Each field the scan of a route line fills is the token after the last stop where its
      keyword has a token after it, else "". */
  lemma RouteFieldsSpec(parts: seq<string>)
    ensures var f := ScanRoute(parts, 1, NoFields);
            var stops := Stops(parts, 1);
            && f.gateway == LastSet(parts, stops, "via", "")
            && f.device == LastSet(parts, stops, "dev", "")
            && f.scope == LastSet(parts, stops, "scope", "")
            && f.source == LastSet(parts, stops, "src", "")
            && f.metric == LastSet(parts, stops, "metric", "")
            && f.protocol == LastSet(parts, stops, "proto", "")
  {
    ScanRouteLastSet(parts, 1, NoFields, "via");
    ScanRouteLastSet(parts, 1, NoFields, "dev");
    ScanRouteLastSet(parts, 1, NoFields, "scope");
    ScanRouteLastSet(parts, 1, NoFields, "src");
    ScanRouteLastSet(parts, 1, NoFields, "metric");
    ScanRouteLastSet(parts, 1, NoFields, "proto");
  }

  /** The destination is the text before the first space, and it alone decides whether the route
      is the default one; the other fields are those `RouteFieldsSpec` describes. */
  lemma RouteLineSpec(line: string)
    ensures var e := RouteLineOf(line);
            var f := ScanRoute(Split(line, " "), 1, NoFields);
            && e.destination == SubstringBefore(line, " ")
            && e.originalLine == line
            && e.gateway == f.gateway && e.device == f.device && e.scope == f.scope
            && e.source == f.source && e.metric == f.metric && e.protocol == f.protocol
            && (e.routeType == DEFAULT <==> SubstringBefore(line, " ") == "default")
  {
    SplitHead(line, " ");
  }

  // ----- rule and route lists -----

  /** `lines().filter { it.isNotBlank() }`. */
  function ContentLines(s: string): seq<string>
  {
    Filter(Lines(s), (l: string) => !IsBlank(l))
  }

  /** `parseIpRuleLine(line.trim())`. */
  function RuleOfLine(line: string): IpRule
  {
    IpRuleOf(Trim(line))
  }

  function IpRulesOf(rulesOutput: string): seq<IpRule>
  {
    Map(ContentLines(rulesOutput), RuleOfLine)
  }

  /** `parseIpRules`. */
  method ParseIpRules(rulesOutput: string) returns (rules: seq<IpRule>)
    ensures rules == IpRulesOf(rulesOutput)
  {
    var lines := ContentLines(rulesOutput);
    rules := [];
    for k := 0 to |lines|
      invariant rules == Map(lines[..k], RuleOfLine)
    {
      assert lines[..k + 1][..k] == lines[..k];
      rules := rules + [IpRuleOf(Trim(lines[k]))];
    }
    assert lines[..|lines|] == lines;
  }

  /** Every non-blank line of the rule text gives exactly one rule, read from the line trimmed, and
      no rule comes from a blank line. */
  lemma IpRulesSpec(rulesOutput: string)
    ensures var lines := ContentLines(rulesOutput);
            var rules := IpRulesOf(rulesOutput);
            && |rules| == |lines|
            && (forall k :: 0 <= k < |rules| ==> rules[k] == IpRuleOf(Trim(lines[k])) && rules[k].originalLine != "")
            && (forall l :: l in Lines(rulesOutput) && !IsBlank(l) <==> l in lines)
  {
    var lines := ContentLines(rulesOutput);
    forall k | 0 <= k < |lines|
      ensures Trim(lines[k]) != ""
    {
      assert lines[k] in lines;
      BlankIffTrimEmpty(lines[k]);
    }
  }

  /** `parseRouteLine(line.trim())`. */
  function RouteOfLine(line: string): RouteEntry
  {
    RouteLineOf(Trim(line))
  }

  function RouteTableOf(tableNumber: string, routeOutput: string): RouteTable
  {
    var routes := Map(ContentLines(routeOutput), RouteOfLine);
    RouteTable(tableNumber, TableName(tableNumber), routes, TableDescription(tableNumber, routes))
  }

  /** `parseRouteTable`. */
  method ParseRouteTable(tableNumber: string, routeOutput: string) returns (table: RouteTable)
    ensures table == RouteTableOf(tableNumber, routeOutput)
  {
    var routes := ParseRoutes(ContentLines(routeOutput));
    table := RouteTable(tableNumber, TableName(tableNumber), routes, TableDescription(tableNumber, routes));
  }

  /** A table holds one route per non-blank line of its output, in order, and its description
      states how many there are. */
  lemma RouteTableSpec(tableNumber: string, routeOutput: string)
    ensures var table := RouteTableOf(tableNumber, routeOutput);
            var lines := ContentLines(routeOutput);
            && table.tableNumber == tableNumber && table.tableName == TableName(tableNumber)
            && |table.routes| == |lines|
            && (forall k :: 0 <= k < |lines| ==> table.routes[k] == RouteLineOf(Trim(lines[k])))
            && Contains(table.description, NatToString(|lines|))
  {
    var routes := Map(ContentLines(routeOutput), RouteOfLine);
    TableDescriptionCounts(tableNumber, routes);
  }

  /** The loop of `parseRouteTable` over the non-blank lines. */
  method ParseRoutes(lines: seq<string>) returns (routes: seq<RouteEntry>)
    ensures routes == Map(lines, RouteOfLine)
  {
    routes := [];
    for k := 0 to |lines|
      invariant routes == Map(lines[..k], RouteOfLine)
    {
      assert lines[..k + 1][..k] == lines[..k];
      var route := ParseRouteLine(Trim(lines[k]));
      assert route == RouteOfLine(lines[k]);
      routes := routes + [route];
    }
    assert lines[..|lines|] == lines;
  }

  /** The table numbers of the rules, in order. */
  function TableNumbers(rules: seq<IpRule>): (r: seq<string>)
    ensures |r| == |rules|
    ensures forall k :: 0 <= k < |r| ==> r[k] == rules[k].tableNumber
  {
    if |rules| == 0 then [] else TableNumbers(rules[..|rules| - 1]) + [rules[|rules| - 1].tableNumber]
  }

  /** The tables `extractTableNumbers` keeps: not blank, and neither `main` nor `local`. */
  predicate KeepTable(t: string)
  {
    !IsBlank(t) && t != "main" && t != "local"
  }

  function KeptTables(rules: seq<IpRule>): seq<string>
  {
    Filter(TableNumbers(rules), KeepTable)
  }

  /** `extractTableNumbers`. */
  method ExtractTableNumbers(rules: seq<IpRule>) returns (tables: seq<string>)
    ensures tables == KeptTables(rules)
  {
    tables := [];
    for k := 0 to |rules|
      invariant tables == Filter(TableNumbers(rules[..k]), KeepTable)
    {
      var numbers := TableNumbers(rules[..k + 1]);
      assert rules[..k + 1][..k] == rules[..k];
      assert numbers[..k] == TableNumbers(rules[..k]);
      if KeepTable(rules[k].tableNumber) {
        tables := tables + [rules[k].tableNumber];
      }
    }
    assert rules[..|rules|] == rules;
  }

  /** A table is kept exactly when some rule names it and it is not blank, `main` or `local`. */
  lemma KeptTablesSpec(rules: seq<IpRule>, t: string)
    ensures t in KeptTables(rules) <==> KeepTable(t) && exists k :: 0 <= k < |rules| && rules[k].tableNumber == t
  {
    var numbers := TableNumbers(rules);
    if t in numbers {
      var k :| 0 <= k < |numbers| && numbers[k] == t;
      assert rules[k].tableNumber == t;
    }
    if exists k :: 0 <= k < |rules| && rules[k].tableNumber == t {
      var k :| 0 <= k < |rules| && rules[k].tableNumber == t;
      assert numbers[k] == t;
    }
  }

  /** The tables queried: the kept ones, then `main` and `local`, each once. */
  function QueriedTables(rules: seq<IpRule>): seq<string>
  {
    Distinct(KeptTables(rules) + ["main", "local"])
  }

  /** Each table is queried once; `main` and `local` always are, and any other table exactly when a
      rule names it and it is not blank. */
  lemma QueriedTablesSpec(rules: seq<IpRule>, t: string)
    ensures var q := QueriedTables(rules);
            && (forall i, j :: 0 <= i < j < |q| ==> q[i] != q[j])
            && "main" in q && "local" in q
            && (t in q <==> t == "main" || t == "local"
                            || (!IsBlank(t) && exists k :: 0 <= k < |rules| && rules[k].tableNumber == t))
  {
    var kept := KeptTables(rules);
    assert "main" in kept + ["main", "local"] && "local" in kept + ["main", "local"];
    assert t in kept + ["main", "local"] <==> t in kept || t == "main" || t == "local";
    KeptTablesSpec(rules, t);
  }

  /** A route query whose text is not an error report. */
  predicate Usable(output: string)
  {
    !StartsWith(output, "Error") && !StartsWith(output, "ADB not found")
  }

  /** What the route query for table `n` adds: its table, when the query succeeded and the table
      has routes. */
  function KeptTable(n: string, routeOutput: string -> string): (r: seq<RouteTable>)
    ensures |r| <= 1
    ensures forall t :: t in r ==> t.tableNumber == n
  {
    var table := RouteTableOf(n, routeOutput(n));
    if Usable(routeOutput(n)) && |table.routes| > 0 then [table] else []
  }

  /** The tables the route queries give, in query order. */
  function TablesFrom(tables: seq<string>, routeOutput: string -> string): seq<RouteTable>
  {
    FlatMap(tables, (n: string) => KeptTable(n, routeOutput))
  }

  /** The table list of `parseRouteData` without the commands: `routeOutput(n)` is what the route
      query for table `n` returns. */
  function RouteDataOf(rulesOutput: string, routeOutput: string -> string): RouteDumpData
  {
    if StartsWith(rulesOutput, "Error") || StartsWith(rulesOutput, "ADB not found") then
      RouteDumpData([], [], ["Failed to get IP rules: " + rulesOutput])
    else
      var rules := IpRulesOf(rulesOutput);
      RouteDumpData(rules, TablesFrom(QueriedTables(rules), routeOutput), [])
  }

  /** `parseRouteData`, with the commands' outputs as parameters. */
  method ParseRouteData(rulesOutput: string, routeOutput: string -> string) returns (data: RouteDumpData)
    ensures data == RouteDataOf(rulesOutput, routeOutput)
  {
    if StartsWith(rulesOutput, "Error") || StartsWith(rulesOutput, "ADB not found") {
      return RouteDumpData([], [], ["Failed to get IP rules: " + rulesOutput]);
    }
    var ipRules := ParseIpRules(rulesOutput);
    var tableNumbers := ExtractTableNumbers(ipRules);
    tableNumbers := tableNumbers + ["main"];
    tableNumbers := tableNumbers + ["local"];
    assert tableNumbers == KeptTables(ipRules) + ["main", "local"];
    var routeTables := QueryTables(Distinct(tableNumbers), routeOutput);
    data := RouteDumpData(ipRules, routeTables, []);
  }

  /** The loop of `parseRouteData` over the distinct table numbers. */
  method QueryTables(queried: seq<string>, routeOutput: string -> string) returns (routeTables: seq<RouteTable>)
    ensures routeTables == TablesFrom(queried, routeOutput)
  {
    routeTables := [];
    for k := 0 to |queried|
      invariant routeTables == TablesFrom(queried[..k], routeOutput)
    {
      assert queried[..k + 1][..k] == queried[..k];
      var kept := QueryTable(queried[k], routeOutput);
      routeTables := routeTables + kept;
    }
    assert queried[..|queried|] == queried;
  }

  /** One table of that loop. */
  method QueryTable(tableNumber: string, routeOutput: string -> string) returns (kept: seq<RouteTable>)
    ensures kept == KeptTable(tableNumber, routeOutput)
  {
    kept := [];
    var output := routeOutput(tableNumber);
    if Usable(output) {
      var routeTable := ParseRouteTable(tableNumber, output);
      if |routeTable.routes| > 0 {
        kept := [routeTable];
      }
    }
  }

  function NumberOf(t: RouteTable): string
  {
    t.tableNumber
  }

  /** A table is in the list exactly when it is the table of a queried number whose query
      succeeded and that has routes, and no number occurs twice in the list when none is queried
      twice. */
  lemma TablesFromSpec(tables: seq<string>, routeOutput: string -> string, t: RouteTable)
    ensures t in TablesFrom(tables, routeOutput) <==>
              && t.tableNumber in tables && Usable(routeOutput(t.tableNumber)) && |t.routes| > 0
              && t == RouteTableOf(t.tableNumber, routeOutput(t.tableNumber))
    ensures NoRepeats(tables) ==> NoRepeats(Map(TablesFrom(tables, routeOutput), NumberOf))
  {
    var f := (n: string) => KeptTable(n, routeOutput);
    FlatMapMembers(tables, f, t);
    if NoRepeats(tables) {
      FlatMapKeysDistinct(tables, f, NumberOf);
    }
  }

  /** A failed rule query gives only its error. Otherwise the rules are those of the rule text,
      the tables kept are exactly those of the queried numbers whose query succeeded and that have
      routes, and no table number occurs twice. */
  lemma RouteDataSpec(rulesOutput: string, routeOutput: string -> string, t: RouteTable)
    ensures var data := RouteDataOf(rulesOutput, routeOutput);
            var failed := StartsWith(rulesOutput, "Error") || StartsWith(rulesOutput, "ADB not found");
            && (failed ==> data == RouteDumpData([], [], ["Failed to get IP rules: " + rulesOutput]))
            && (!failed ==> data.ipRules == IpRulesOf(rulesOutput) && data.parseErrors == [])
            && (!failed ==>
                  (t in data.routeTables <==>
                     && t.tableNumber in QueriedTables(data.ipRules)
                     && Usable(routeOutput(t.tableNumber)) && |t.routes| > 0
                     && t == RouteTableOf(t.tableNumber, routeOutput(t.tableNumber))))
            && NoRepeats(Map(data.routeTables, NumberOf))
  {
    if !(StartsWith(rulesOutput, "Error") || StartsWith(rulesOutput, "ADB not found")) {
      var rules := IpRulesOf(rulesOutput);
      var q := QueriedTables(rules);
      QueriedTablesSpec(rules, "");
      TablesFromSpec(q, routeOutput, t);
    } else {
      assert Map([], NumberOf) == [];
    }
  }
}
