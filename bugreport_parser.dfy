/** The bug report reader: sections cut out between a `DUMP OF SERVICE` header and the next
    `------ ` line, the processor and memory summaries read line by line from their sections, the
    `top` listing, and the network service sections handed to their own parsers. */
module BugreportParser {
  import opened Text
  import opened Patterns
  import opened BugreportModel
  import WifiDumpParser
  import NetworkStackParser
  import NetStatsParser
  import ConnectivityParser

  // ----- the window a flag loop reads -----

  /* `extractSection` and `parseTopProcesses` share one loop: a line where `isStart` holds sets the
     flag and is skipped; once the flag is set, a line where `isEnd` holds stops the loop, and every
     other line adds what `row` makes of it. */

  /** The first line at or after `from` where `isStart` holds. */
  function WindowStart(lines: seq<string>, from: nat, isStart: string -> bool): (r: Option<nat>)
    requires from <= |lines|
    ensures r.Some? ==> from <= r.value < |lines|
    decreases |lines| - from
  {
    if from == |lines| then None
    else if isStart(lines[from]) then Some(from)
    else WindowStart(lines, from + 1, isStart)
  }

  lemma {:induction false} WindowStartSpec(lines: seq<string>, from: nat, isStart: string -> bool)
    requires from <= |lines|
    ensures var r := WindowStart(lines, from, isStart);
            && (r.Some? ==> isStart(lines[r.value]))
            && forall k :: from <= k < |lines| && (r.None? || k < r.value) ==> !isStart(lines[k])
    decreases |lines| - from
  {
    if from < |lines| && !isStart(lines[from]) {
      WindowStartSpec(lines, from + 1, isStart);
    }
  }

  /** A line that stops the loop: `isEnd` holds and `isStart` does not (that test comes first). */
  predicate Stops(line: string, isStart: string -> bool, isEnd: string -> bool)
  {
    !isStart(line) && isEnd(line)
  }

  /** The first line at or after `from` that stops the loop, or `|lines|`. */
  function WindowEnd(lines: seq<string>, from: nat, isStart: string -> bool, isEnd: string -> bool): (e: nat)
    requires from <= |lines|
    ensures from <= e <= |lines|
    decreases |lines| - from
  {
    if from == |lines| || Stops(lines[from], isStart, isEnd) then from
    else WindowEnd(lines, from + 1, isStart, isEnd)
  }

  lemma {:induction false} WindowEndSpec(lines: seq<string>, from: nat, isStart: string -> bool, isEnd: string -> bool)
    requires from <= |lines|
    ensures var e := WindowEnd(lines, from, isStart, isEnd);
            && (e < |lines| ==> Stops(lines[e], isStart, isEnd))
            && forall k :: from <= k < e ==> !Stops(lines[k], isStart, isEnd)
    decreases |lines| - from
  {
    if from < |lines| && !Stops(lines[from], isStart, isEnd) {
      WindowEndSpec(lines, from + 1, isStart, isEnd);
    }
  }

  /** What `row` makes of the lines in `[lo, hi)` where `isStart` does not hold, in order. */
  function Collect<T>(lines: seq<string>, lo: nat, hi: nat, isStart: string -> bool, row: string -> seq<T>): seq<T>
    requires lo <= hi <= |lines|
    decreases hi - lo
  {
    if hi == lo then []
    else
      var last := lines[hi - 1];
      Collect(lines, lo, hi - 1, isStart, row) + (if isStart(last) then [] else row(last))
  }

  lemma {:induction false} CollectMembers<T>(lines: seq<string>, lo: nat, hi: nat, isStart: string -> bool,
                                             row: string -> seq<T>, u: T)
    requires lo <= hi <= |lines|
    ensures u in Collect(lines, lo, hi, isStart, row) <==> exists k :: lo <= k < hi && !isStart(lines[k]) && u in row(lines[k])
    decreases hi - lo
  {
    if hi > lo {
      CollectMembers(lines, lo, hi - 1, isStart, row, u);
    }
  }

  /** What the loop collects: `row` of each line after the first start line, up to the first line
      that stops it, start lines left out; nothing when no line is a start line. */
  function Window<T>(lines: seq<string>, isStart: string -> bool, isEnd: string -> bool, row: string -> seq<T>): seq<T>
  {
    match WindowStart(lines, 0, isStart)
    case None => []
    case Some(i) => Collect(lines, i + 1, WindowEnd(lines, i + 1, isStart, isEnd), isStart, row)
  }

  /** The flag loop. */
  method ScanWindow<T>(lines: seq<string>, isStart: string -> bool, isEnd: string -> bool, row: string -> seq<T>)
    returns (result: seq<T>)
    ensures result == Window(lines, isStart, isEnd, row)
  {
    result := [];
    var inSection := false;
    ghost var start: nat := 0;
    for k := 0 to |lines|
      invariant !inSection ==> result == [] && WindowStart(lines, 0, isStart) == WindowStart(lines, k, isStart)
      invariant inSection ==>
                  && WindowStart(lines, 0, isStart) == Some(start) && start < k
                  && WindowEnd(lines, start + 1, isStart, isEnd) == WindowEnd(lines, k, isStart, isEnd)
                  && result == Collect(lines, start + 1, k, isStart, row)
    {
      var line := lines[k];
      if isStart(line) {
        if !inSection {
          start := k;
        }
        inSection := true;
        continue;
      }
      if inSection && isEnd(line) {
        break;
      }
      if inSection {
        result := result + row(line);
      }
    }
  }

  /** An element is collected exactly when `row` gives it for a line after the first start line
      that is not itself a start line, with no line from there up to it stopping the loop. Without
      a start line nothing is collected. */
  lemma WindowSpec<T>(lines: seq<string>, isStart: string -> bool, isEnd: string -> bool, row: string -> seq<T>, u: T)
    ensures (forall k :: 0 <= k < |lines| ==> !isStart(lines[k])) ==> Window(lines, isStart, isEnd, row) == []
    ensures forall i :: 0 <= i < |lines| && isStart(lines[i]) && (forall k :: 0 <= k < i ==> !isStart(lines[k])) ==>
              (u in Window(lines, isStart, isEnd, row) <==>
                 exists k :: i < k < |lines| && !isStart(lines[k]) && u in row(lines[k])
                             && forall j :: i < j <= k ==> !Stops(lines[j], isStart, isEnd))
  {
    WindowStartSpec(lines, 0, isStart);
    var r := WindowStart(lines, 0, isStart);
    if r.Some? {
      var i := r.value;
      var e := WindowEnd(lines, i + 1, isStart, isEnd);
      WindowEndSpec(lines, i + 1, isStart, isEnd);
      CollectMembers(lines, i + 1, e, isStart, row, u);
    }
  }

  // ----- sections -----

  /** A line that opens the section. */
  function StartTest(startMarker: string): string -> bool
  {
    (line: string) => Contains(line, startMarker)
  }

  /** A line that closes the section. */
  function EndTest(endMarker: string): string -> bool
  {
    (line: string) => StartsWith(line, endMarker)
  }

  function Single(line: string): seq<string>
  {
    [line]
  }

  /** What `extractSection` returns. */
  function Section(lines: seq<string>, startMarker: string, endMarker: string): seq<string>
  {
    Window(lines, StartTest(startMarker), EndTest(endMarker), Single)
  }

  /** `extractSection`. */
  method ExtractSection(lines: seq<string>, startMarker: string, endMarker: string) returns (result: seq<string>)
    ensures result == Section(lines, startMarker, endMarker)
  {
    result := ScanWindow(lines, StartTest(startMarker), EndTest(endMarker), Single);
  }

  /** A line belongs to a section exactly when it comes after the first line that contains the
      start marker, does not contain it itself, and neither it nor a line between starts with the
      end marker without containing the start marker. Without a start marker the section is
      empty. */
  lemma SectionSpec(lines: seq<string>, startMarker: string, endMarker: string, l: string)
    ensures (forall k :: 0 <= k < |lines| ==> !Contains(lines[k], startMarker)) ==> Section(lines, startMarker, endMarker) == []
    ensures forall i :: 0 <= i < |lines| && Contains(lines[i], startMarker) && (forall k :: 0 <= k < i ==> !Contains(lines[k], startMarker)) ==>
              (l in Section(lines, startMarker, endMarker) <==>
                 exists k :: i < k < |lines| && lines[k] == l && !Contains(l, startMarker)
                             && forall j :: i < j <= k ==> Contains(lines[j], startMarker) || !StartsWith(lines[j], endMarker))
  {
    WindowSpec(lines, StartTest(startMarker), EndTest(endMarker), Single, l);
  }

  // ----- the top listing -----

  predicate IsTopMarker(line: string)
  {
    Contains(line, "top -") || Contains(line, "TOP PROCESSES")
  }

  /** The line that ends the listing: blank once trimmed. */
  predicate IsEmptyTrimmed(line: string)
  {
    Trim(line) == ""
  }

  /** Kotlin `replace("%", "")`. */
  function WithoutPercent(s: string): (r: string)
    ensures '%' !in r
  {
    Filter(s, (c: char) => c != '%')
  }

  /** The process a line of the listing gives: a line with a `%` whose fields, split at runs of
      spaces, number at least four, the first and the last not empty. */
  function RowProcess(line: string): (r: seq<ProcessInfo>)
    ensures |r| <= 1
  {
    if !Contains(line, "%") then []
    else
      var parts := SplitSpaces(Trim(line));
      if |parts| < 4 || parts[0] == "" || parts[|parts| - 1] == "" then []
      else
        var cpuUsage := WithoutPercent(if |parts| > 8 then parts[8] else "0");
        var memUsage := if |parts| > 9 then parts[9] else "0";
        [ProcessInfo(parts[0], parts[|parts| - 1], cpuUsage, memUsage)]
  }

  /** What `parseTopProcesses` returns: the first ten processes of the listing. */
  function TopProcessesOf(lines: seq<string>): seq<ProcessInfo>
  {
    Take(Window(lines, IsTopMarker, IsEmptyTrimmed, RowProcess), 10)
  }

  /** `parseTopProcesses`. */
  method ParseTopProcesses(lines: seq<string>) returns (top: seq<ProcessInfo>)
    ensures top == TopProcessesOf(lines)
  {
    var processes := ScanWindow(lines, IsTopMarker, IsEmptyTrimmed, RowProcess);
    top := Take(processes, 10);
  }

  /** The row of the `top` listing a process was read from: it has a `%` and splits into at
      least four fields, the first being the process id and the last its name, neither empty. */
  predicate ProcessRow(line: string, p: ProcessInfo)
  {
    Contains(line, "%") &&
    var parts := SplitSpaces(Trim(line));
    |parts| >= 4 && p.pid == parts[0] != "" && p.name == parts[|parts| - 1] != ""
  }

  lemma RowProcessSpec(line: string, p: ProcessInfo)
    requires p in RowProcess(line)
    ensures ProcessRow(line, p)
  {
  }

  /** There are at most ten processes, and none without a marker line. */
  lemma TopProcessesBounds(lines: seq<string>)
    ensures |TopProcessesOf(lines)| <= 10
    ensures (forall k :: 0 <= k < |lines| ==> !IsTopMarker(lines[k])) ==> TopProcessesOf(lines) == []
  {
    var u: ProcessInfo :| true;
    WindowSpec(lines, IsTopMarker, IsEmptyTrimmed, RowProcess, u);
  }

  /** Every process listed comes from a row after the first marker line `i`, with no blank line
      between the two. */
  lemma TopProcessesSpec(lines: seq<string>, i: nat, p: ProcessInfo)
    requires i < |lines| && IsTopMarker(lines[i])
    requires forall k :: 0 <= k < i ==> !IsTopMarker(lines[k])
    requires p in TopProcessesOf(lines)
    ensures exists k :: i < k < |lines| && !IsTopMarker(lines[k]) && ProcessRow(lines[k], p)
                        && forall j :: i < j <= k ==> IsTopMarker(lines[j]) || Trim(lines[j]) != ""
  {
    WindowSpec(lines, IsTopMarker, IsEmptyTrimmed, RowProcess, p);
    var k :| i < k < |lines| && !IsTopMarker(lines[k]) && p in RowProcess(lines[k])
             && forall j :: i < j <= k ==> !Stops(lines[j], IsTopMarker, IsEmptyTrimmed);
    RowProcessSpec(lines[k], p);
  }

  // ----- memory values -----

  /** `(\d+)\s*unit`: a captured number, optional spaces, then the unit. */
  function NumberThen(unit: string): Pattern
  {
    [Group(1, [Plus(Digit)]), Many(Space), Lit(unit)]
  }

  /** A unit the matcher can tell apart from the digits and spaces before it. */
  predicate IsUnit(unit: string)
  {
    |unit| > 0 && !InClass(unit[0], Digit) && !InClass(unit[0], Space)
  }

  /** A run of digits starts at `p`, and right after it and the spaces that follow comes `unit`. */
  predicate NumberAt(s: string, unit: string, p: nat)
  {
    p <= |s| &&
    var n := RunLength(s, p, Digit, None);
    n >= 1 && OccursAt(s, unit, p + n + RunLength(s, p + n, Space, None))
  }

  /** The first position at or after `from` where `NumberAt` holds. */
  function FirstNumberFrom(s: string, unit: string, from: nat): (r: Option<nat>)
    ensures r.Some? ==> from <= r.value <= |s| && NumberAt(s, unit, r.value)
    ensures forall q :: from <= q && (r.None? || q < r.value) ==> !NumberAt(s, unit, q)
    decreases |s| - from
  {
    if from > |s| then None
    else if NumberAt(s, unit, from) then Some(from)
    else FirstNumberFrom(s, unit, from + 1)
  }

  /** The digit run starting at `p`. */
  function DigitsAt(s: string, p: nat): (r: string)
    requires p <= |s|
    ensures AllDigits(r)
  {
    s[p..p + RunLength(s, p, Digit, None)]
  }

  /** The reference reading of `(\d+)\s*unit`: the digits of the first place where it fits. */
  function NumberBefore(s: string, unit: string): (r: Option<string>)
    ensures r.Some? ==> |r.value| >= 1 && AllDigits(r.value)
  {
    match FirstNumberFrom(s, unit, 0)
    case None => None
    case Some(p) => Some(DigitsAt(s, p))
  }

  /** The unit cannot start at a character other than its first. */
  lemma NoUnitAt(s: string, unit: string, j: nat)
    requires |unit| > 0 && j < |s| && s[j] != unit[0]
    ensures !OccursAt(s, unit, j)
  {
    if j + |unit| <= |s| {
      assert s[j..j + |unit|][0] == s[j];
    }
  }

  /** What matching the unit alone at `p` yields. */
  function UnitResult(s: string, unit: string, p: nat, g: map<nat, string>): Option<State>
  {
    if OccursAt(s, unit, p) then Some(State(p + |unit|, g)) else None
  }

  lemma MatchUnit(s: string, unit: string, p: nat, g: map<nat, string>)
    requires p <= |s|
    ensures Match([Lit(unit)], s, p, g) == UnitResult(s, unit, p, g)
  {
    assert [Lit(unit)][0] == Lit(unit) && [Lit(unit)][1..] == [];
  }

  /** Backing off below the whole run of spaces never reaches the unit. */
  lemma {:induction false} SpacesThenUnit(s: string, unit: string, p: nat, m: nat, g: map<nat, string>)
    requires IsUnit(unit)
    requires p <= |s| && m <= RunLength(s, p, Space, None)
    ensures Longest([Lit(unit)], s, p, 0, m, g)
              == if m == RunLength(s, p, Space, None) then UnitResult(s, unit, p + m, g) else None
    decreases m
  {
    MatchUnit(s, unit, p + m, g);
    if m < RunLength(s, p, Space, None) {
      assert InClass(s[p + m], Space);
      NoUnitAt(s, unit, p + m);
      assert UnitResult(s, unit, p + m, g) == None;
    }
    if m > 0 {
      SpacesThenUnit(s, unit, p, m - 1, g);
    }
  }

  /** After the digits, `\s*unit` matches exactly when the unit follows the spaces. */
  lemma MatchSpacesUnit(s: string, unit: string, p: nat, g: map<nat, string>)
    requires IsUnit(unit) && p <= |s|
    ensures Match([Many(Space), Lit(unit)], s, p, g) == UnitResult(s, unit, p + RunLength(s, p, Space, None), g)
  {
    assert [Many(Space), Lit(unit)][1..] == [Lit(unit)];
    SpacesThenUnit(s, unit, p, RunLength(s, p, Space, None), g);
  }

  /** What the rest of `(\d+)\s*unit` yields once the group closes after `m` digits at `q`. */
  function AfterDigits(s: string, unit: string, q: nat, m: nat): Option<State>
    requires q + m <= |s|
  {
    var sp := RunLength(s, q + m, Space, None);
    if OccursAt(s, unit, q + m + sp) then Some(State(q + m + sp + |unit|, map[1 := s[q..q + m]])) else None
  }

  /** Closing the group after `m` digits: what `\s*unit` makes of the rest. */
  lemma MatchAfterDigits(s: string, unit: string, q: nat, m: nat)
    requires IsUnit(unit) && q + m <= |s|
    ensures Match([Close(1, q), Many(Space), Lit(unit)], s, q + m, map[]) == AfterDigits(s, unit, q, m)
  {
    var g := map[1 := s[q..q + m]];
    assert [Close(1, q), Many(Space), Lit(unit)][1..] == [Many(Space), Lit(unit)];
    assert map[][1 := s[q..q + m]] == g;
    assert Match([Close(1, q), Many(Space), Lit(unit)], s, q + m, map[])
        == Match([Many(Space), Lit(unit)], s, q + m, g);
    MatchSpacesUnit(s, unit, q + m, g);
    assert AfterDigits(s, unit, q, m) == UnitResult(s, unit, q + m + RunLength(s, q + m, Space, None), g);
  }

  /** Backing off inside the run of digits never lets `\s*unit` match: a digit follows. */
  lemma {:induction false} DigitsBackOff(s: string, unit: string, q: nat, m: nat, n: nat)
    requires IsUnit(unit)
    requires 1 <= m < n && q + n <= |s|
    requires forall j :: q <= j < q + n ==> InClass(s[j], Digit)
    ensures Longest([Close(1, q), Many(Space), Lit(unit)], s, q, 1, m, map[]).None?
    decreases m
  {
    MatchAfterDigits(s, unit, q, m);
    assert InClass(s[q + m], Digit);
    assert RunLength(s, q + m, Space, None) == 0;
    NoUnitAt(s, unit, q + m);
    if m > 1 {
      DigitsBackOff(s, unit, q, m - 1, n);
    }
  }

  /** What `(\d+)` leaves to the rest of the pattern: greedy backtracking over the digit run. */
  lemma NumberUnfold(s: string, unit: string, q: nat)
    requires q <= |s|
    ensures var n := RunLength(s, q, Digit, None);
            Match(NumberThen(unit), s, q, map[])
              == if n == 0 then None else Longest([Close(1, q), Many(Space), Lit(unit)], s, q, 1, n, map[])
  {
    var pat := NumberThen(unit);
    var after := [Close(1, q), Many(Space), Lit(unit)];
    assert pat[0] == Group(1, [Plus(Digit)]);
    assert pat[1..] == [Many(Space), Lit(unit)];
    assert [Plus(Digit)] + ([Close(1, q)] + pat[1..]) == [Plus(Digit)] + after;
    assert Match(pat, s, q, map[]) == Match([Plus(Digit)] + after, s, q, map[]);
    assert ([Plus(Digit)] + after)[0] == Run(Digit, 1, None, false);
    assert ([Plus(Digit)] + after)[1..] == after;
  }

  /** Only the whole digit run can be followed by `\s*unit`. */
  lemma NumberLongest(s: string, unit: string, q: nat, n: nat)
    requires IsUnit(unit)
    requires q <= |s| && n == RunLength(s, q, Digit, None) && n >= 1
    ensures Longest([Close(1, q), Many(Space), Lit(unit)], s, q, 1, n, map[]) == AfterDigits(s, unit, q, n)
  {
    MatchAfterDigits(s, unit, q, n);
    if n > 1 {
      DigitsBackOff(s, unit, q, n - 1, n);
    }
  }

  /** The whole match, with the backtracking resolved. */
  lemma MatchNumberResult(s: string, unit: string, q: nat)
    requires IsUnit(unit) && q <= |s|
    ensures var n := RunLength(s, q, Digit, None);
            Match(NumberThen(unit), s, q, map[]) == if n == 0 then None else AfterDigits(s, unit, q, n)
  {
    NumberUnfold(s, unit, q);
    var n := RunLength(s, q, Digit, None);
    if n > 0 {
      NumberLongest(s, unit, q, n);
    }
  }

  /** The state after the whole digit run is there exactly where `NumberAt` holds. */
  lemma AfterAllDigits(s: string, unit: string, q: nat)
    requires q <= |s| && RunLength(s, q, Digit, None) >= 1
    ensures var r := AfterDigits(s, unit, q, RunLength(s, q, Digit, None));
            (r.Some? <==> NumberAt(s, unit, q)) && (r.Some? ==> r.value.groups == map[1 := DigitsAt(s, q)])
  {
  }

  /** `(\d+)\s*unit` matches at `q` exactly where `NumberAt` holds, capturing the whole digit run. */
  lemma MatchNumber(s: string, unit: string, q: nat)
    requires IsUnit(unit) && q <= |s|
    ensures var r := Match(NumberThen(unit), s, q, map[]);
            (r.Some? <==> NumberAt(s, unit, q)) && (r.Some? ==> r.value.groups == map[1 := DigitsAt(s, q)])
  {
    MatchNumberResult(s, unit, q);
    if RunLength(s, q, Digit, None) > 0 {
      AfterAllDigits(s, unit, q);
    }
  }

  lemma FindNumberHere(s: string, unit: string, from: nat)
    requires IsUnit(unit) && from <= |s| && NumberAt(s, unit, from)
    ensures FindFrom(NumberThen(unit), s, from).Some?
    ensures GroupValue(FindFrom(NumberThen(unit), s, from).value, 1) == DigitsAt(s, from)
  {
    MatchNumber(s, unit, from);
  }

  lemma {:induction false} FindNumberFrom(s: string, unit: string, from: nat)
    requires IsUnit(unit) && from <= |s|
    ensures var f := FindFrom(NumberThen(unit), s, from);
            var p := FirstNumberFrom(s, unit, from);
            (f.Some? <==> p.Some?) && (p.Some? ==> GroupValue(f.value, 1) == DigitsAt(s, p.value))
    decreases |s| - from
  {
    if NumberAt(s, unit, from) {
      FindNumberHere(s, unit, from);
    } else {
      MatchNumber(s, unit, from);
      if from < |s| {
        FindNumberFrom(s, unit, from + 1);
      }
    }
  }

  /** A number is read only where the unit occurs. */
  lemma NumberNeedsUnit(s: string, unit: string, p: nat)
    requires NumberAt(s, unit, p)
    ensures Contains(s, unit)
  {
    var q := p + RunLength(s, p, Digit, None);
    var j := q + RunLength(s, q, Space, None);
    assert OccursAt(s, unit, j);
    ContainsIff(s, unit);
  }

  /** `Regex("(\\d+)\\s*unit").find(s)?.groupValues?.get(1)` is the reference reading, and there
      is none where the unit does not occur. */
  lemma FindNumber(s: string, unit: string)
    requires IsUnit(unit)
    ensures FindGroup(NumberThen(unit), s, 1) == NumberBefore(s, unit)
    ensures !Contains(s, unit) ==> NumberBefore(s, unit).None?
  {
    FindNumberFrom(s, unit, 0);
    match FirstNumberFrom(s, unit, 0)
    case Some(p) => NumberNeedsUnit(s, unit, p);
    case None =>
  }

  /** `(\d+)\s*kB`. */
  const KbPattern: Pattern := NumberThen("kB")

  /** `extractMemoryValue`: the first `<digits> kB` figure in bytes, as a 64-bit `Long`. */
  function ExtractMemoryValue(line: string): (v: int)
    ensures LONG_MIN <= v <= LONG_MAX
  {
    match FindGroup(KbPattern, line, 1)
    case None => 0
    case Some(digits) =>
      match ToLongOrNull(digits)
      case Some(kb) => Wrap64(kb * 1024)
      case None => 0
  }

  /** Wrapping a multiple of 1024 keeps it one, since 2^64 is one. */
  lemma Wrap64KeepsKilobytes(x: int)
    requires x % 1024 == 0
    ensures Wrap64(x) % 1024 == 0
  {
    var m := 0x1_0000_0000_0000_0000;
    var t := (x - LONG_MIN) / m;
    assert x - LONG_MIN == m * t + (x - LONG_MIN) % m;
    assert Wrap64(x) == x - m * t;
    var a := x / 1024;
    assert x == 1024 * a;
    assert Wrap64(x) == 1024 * (a - 0x40_0000_0000_0000 * t);
  }

  /** A run of digits reads as its value wherever that fits. */
  lemma DigitsToLong(d: string)
    requires |d| >= 1 && AllDigits(d) && DigitsValue(d) <= LONG_MAX
    ensures ToLongOrNull(d) == Some(DigitsValue(d))
  {
    assert d[0] != '-' && d[0] != '+' by { assert IsDigit(d[0]); }
  }

  /** The regular expression reads the reference digits. The value is 0 where no `<digits> kB`
      occurs (in particular where `kB` does not), is always a whole number of kilobytes, and is
      1024 times the digits' value whenever that fits in a `Long`. */
  lemma ExtractMemoryValueSpec(line: string)
    ensures FindGroup(KbPattern, line, 1) == NumberBefore(line, "kB")
    ensures NumberBefore(line, "kB").None? ==> ExtractMemoryValue(line) == 0
    ensures !Contains(line, "kB") ==> ExtractMemoryValue(line) == 0
    ensures ExtractMemoryValue(line) % 1024 == 0
    ensures var d := NumberBefore(line, "kB");
            d.Some? && DigitsValue(d.value) * 1024 <= LONG_MAX ==> ExtractMemoryValue(line) == DigitsValue(d.value) * 1024
  {
    assert IsUnit("kB") by { assert "kB"[0] == 'k'; }
    FindNumber(line, "kB");
    var d := NumberBefore(line, "kB");
    if d.Some? {
      var v := d.value;
      var n := ToLongOrNull(v);
      if n.Some? {
        Wrap64KeepsKilobytes(n.value * 1024);
      }
      if DigitsValue(v) * 1024 <= LONG_MAX {
        DigitsToLong(v);
      }
    }
  }

  // ----- processor summary -----

  const END_MARKER := "------ "

  /** The branch of the `when` in `parseCpuInfo` a line of the cpuinfo section takes. */
  datatype CpuRole = Processor | ModelName | ClockSpeed | Architecture | NoRole

  function RoleOf(line: string): CpuRole
  {
    if StartsWith(line, "processor") then Processor
    else if Contains(line, "model name") then ModelName
    else if Contains(line, "cpu MHz") then ClockSpeed
    else if Contains(line, "architecture") || Contains(line, "CPU architecture") then Architecture
    else NoRole
  }

  /** `substringAfter(":").trim()`. */
  function AfterColon(line: string): string
  {
    Trim(SubstringAfter(line, ":"))
  }

  /** The four variables `parseCpuInfo` updates while it reads the cpuinfo section. */
  datatype CpuFields = CpuFields(processorCount: int, architecture: string, modelName: string, clockSpeed: string)

  /** One turn of the loop on a line of the given role: a processor index at or above the count
      raises the count to the index plus one (an `Int` addition), and the other roles overwrite
      their text. */
  function CpuStep(f: CpuFields, role: CpuRole, line: string): CpuFields
  {
    match role
    case Processor =>
      (match ToIntOrNull(AfterColon(line))
       case Some(count) => if count >= f.processorCount then f.(processorCount := Wrap32(count + 1)) else f
       case None => f)
    case ModelName => f.(modelName := AfterColon(line))
    case ClockSpeed => f.(clockSpeed := AfterColon(line) + " MHz")
    case Architecture => f.(architecture := AfterColon(line))
    case NoRole => f
  }

  /** The variables after the loop has read `lines[..hi]`, each line taking the branch `roleOf`
      gives it (`RoleOf` in `parseCpuInfo`). */
  function CpuScan(lines: seq<string>, hi: nat, roleOf: string -> CpuRole): CpuFields
    requires hi <= |lines|
  {
    if hi == 0 then CpuFields(0, "", "", "")
    else CpuStep(CpuScan(lines, hi - 1, roleOf), roleOf(lines[hi - 1]), lines[hi - 1])
  }

  /** The text field a role sets. */
  function TextOf(f: CpuFields, role: CpuRole): string
  {
    match role
    case ModelName => f.modelName
    case ClockSpeed => f.clockSpeed
    case Architecture => f.architecture
    case _ => ""
  }

  /** The text a line of that role gives. */
  function RoleText(line: string, role: CpuRole): string
  {
    if role == ClockSpeed then AfterColon(line) + " MHz" else AfterColon(line)
  }

  /** A line changes only the text field of its own role. */
  lemma CpuStepText(f: CpuFields, lineRole: CpuRole, line: string, role: CpuRole)
    requires role == ModelName || role == ClockSpeed || role == Architecture
    ensures TextOf(CpuStep(f, lineRole, line), role) == if lineRole == role then RoleText(line, role) else TextOf(f, role)
  {
  }

  /** The last of `lines[..hi]` that `kindOf` classifies as `kind`. */
  function LastOf<K(==)>(lines: seq<string>, hi: nat, kindOf: string -> K, kind: K): (r: Option<nat>)
    requires hi <= |lines|
    ensures r.Some? ==> r.value < hi
  {
    if hi == 0 then None
    else if kindOf(lines[hi - 1]) == kind then Some(hi - 1)
    else LastOf(lines, hi - 1, kindOf, kind)
  }

  /** There is no line of the kind exactly when none is found, and the one found is of the kind
      and no later line is. */
  lemma {:induction false} LastOfSpec<K>(lines: seq<string>, hi: nat, kindOf: string -> K, kind: K)
    requires hi <= |lines|
    ensures var r := LastOf(lines, hi, kindOf, kind);
            (r.None? <==> forall k :: 0 <= k < hi ==> kindOf(lines[k]) != kind)
            && (r.Some? ==> kindOf(lines[r.value]) == kind && forall j :: r.value < j < hi ==> kindOf(lines[j]) != kind)
  {
    if hi > 0 && kindOf(lines[hi - 1]) != kind {
      LastOfSpec(lines, hi - 1, kindOf, kind);
    }
  }

  /** One text field: that of the last line of its role, and empty without one. */
  function TextScan(lines: seq<string>, hi: nat, roleOf: string -> CpuRole, role: CpuRole): string
    requires hi <= |lines|
  {
    match LastOf(lines, hi, roleOf, role)
    case Some(k) => RoleText(lines[k], role)
    case None => ""
  }

  /** The loop's model name, clock speed and architecture are those of the last line of their
      role, and empty where there is none. */
  lemma {:induction false} CpuScanText(lines: seq<string>, hi: nat, roleOf: string -> CpuRole, role: CpuRole)
    requires hi <= |lines|
    requires role == ModelName || role == ClockSpeed || role == Architecture
    ensures TextOf(CpuScan(lines, hi, roleOf), role) == TextScan(lines, hi, roleOf, role)
  {
    if hi > 0 {
      var line := lines[hi - 1];
      CpuScanText(lines, hi - 1, roleOf, role);
      CpuStepText(CpuScan(lines, hi - 1, roleOf), roleOf(line), line, role);
      assert CpuScan(lines, hi, roleOf) == CpuStep(CpuScan(lines, hi - 1, roleOf), roleOf(line), line);
      if roleOf(line) == role {
        assert TextScan(lines, hi, roleOf, role) == RoleText(line, role);
      } else {
        assert LastOf(lines, hi, roleOf, role) == LastOf(lines, hi - 1, roleOf, role);
      }
    }
  }

  /** The processor index a line of role `Processor` gives, when it reads as an `Int`. */
  function IndexBy(line: string, roleOf: string -> CpuRole): Option<int>
  {
    if roleOf(line) == Processor then ToIntOrNull(AfterColon(line)) else None
  }

  /** The count after a line that gives `index`: raised to the index plus one when the index is at
      or above it. */
  function NextCount(count: int, index: Option<int>): int
  {
    if index.Some? && index.value >= count then Wrap32(index.value + 1) else count
  }

  /** The processor count alone, read from the indices of `lines[..hi]`. */
  function CountScan(lines: seq<string>, hi: nat, roleOf: string -> CpuRole): int
    requires hi <= |lines|
  {
    if hi == 0 then 0 else NextCount(CountScan(lines, hi - 1, roleOf), IndexBy(lines[hi - 1], roleOf))
  }

  lemma CpuStepCount(f: CpuFields, roleOf: string -> CpuRole, line: string)
    ensures CpuStep(f, roleOf(line), line).processorCount == NextCount(f.processorCount, IndexBy(line, roleOf))
  {
  }

  /** The loop's count is the count read from the indices alone. */
  lemma {:induction false} CpuScanCount(lines: seq<string>, hi: nat, roleOf: string -> CpuRole)
    requires hi <= |lines|
    ensures CpuScan(lines, hi, roleOf).processorCount == CountScan(lines, hi, roleOf)
  {
    if hi > 0 {
      CpuScanCount(lines, hi - 1, roleOf);
      CpuStepCount(CpuScan(lines, hi - 1, roleOf), roleOf, lines[hi - 1]);
    }
  }

  /** Where no processor index is `Int.MAX_VALUE`, the count is one more than the largest
      non-negative index and 0 without one: it bounds every index and is one past some index. */
  lemma {:induction false} ProcessorCountSpec(lines: seq<string>, hi: nat, roleOf: string -> CpuRole)
    requires hi <= |lines|
    requires forall k :: 0 <= k < hi ==> IndexBy(lines[k], roleOf) != Some(INT_MAX)
    ensures CountScan(lines, hi, roleOf) >= 0
    ensures forall k :: 0 <= k < hi && IndexBy(lines[k], roleOf).Some? && IndexBy(lines[k], roleOf).value >= 0 ==>
              IndexBy(lines[k], roleOf).value < CountScan(lines, hi, roleOf)
    ensures CountScan(lines, hi, roleOf) > 0 ==>
              exists k :: 0 <= k < hi && IndexBy(lines[k], roleOf) == Some(CountScan(lines, hi, roleOf) - 1)
  {
    if hi > 0 {
      ProcessorCountSpec(lines, hi - 1, roleOf);
      var before := CountScan(lines, hi - 1, roleOf);
      var count := CountScan(lines, hi, roleOf);
      var index := IndexBy(lines[hi - 1], roleOf);
      if index.Some? && index.value >= before {
        assert index.value <= INT_MAX && index.value != INT_MAX;
        assert count == index.value + 1;
      } else {
        assert count == before;
        if count > 0 {
          var k :| 0 <= k < hi - 1 && IndexBy(lines[k], roleOf) == Some(count - 1);
          assert 0 <= k < hi && IndexBy(lines[k], roleOf) == Some(count - 1);
        }
      }
      forall k | 0 <= k < hi && IndexBy(lines[k], roleOf).Some? && IndexBy(lines[k], roleOf).value >= 0
        ensures IndexBy(lines[k], roleOf).value < count
      {
        if k == hi - 1 {
          assert IndexBy(lines[k], roleOf) == index;
        }
      }
    }
  }

  /** The loop of `parseCpuInfo` over the cpuinfo section, `roleOf` choosing each line's branch. */
  method ReadCpuSection(section: seq<string>, roleOf: string -> CpuRole)
    returns (processorCount: int, architecture: string, modelName: string, clockSpeed: string)
    ensures CpuFields(processorCount, architecture, modelName, clockSpeed) == CpuScan(section, |section|, roleOf)
  {
    processorCount, architecture, modelName, clockSpeed := 0, "", "", "";
    for k := 0 to |section|
      invariant CpuFields(processorCount, architecture, modelName, clockSpeed) == CpuScan(section, k, roleOf)
    {
      var line := section[k];
      ghost var before := CpuFields(processorCount, architecture, modelName, clockSpeed);
      assert CpuScan(section, k + 1, roleOf) == CpuStep(before, roleOf(line), line);
      match roleOf(line) {
      case Processor =>
        var count := ToIntOrNull(AfterColon(line));
        if count.Some? && count.value >= processorCount {
          processorCount := Wrap32(count.value + 1);
        }
      case ModelName =>
        modelName := AfterColon(line);
      case ClockSpeed =>
        clockSpeed := AfterColon(line) + " MHz";
      case Architecture =>
        architecture := AfterColon(line);
      case NoRole =>
      }
      assert CpuFields(processorCount, architecture, modelName, clockSpeed) == CpuStep(before, roleOf(line), line);
    }
  }

  /** `parseCpuInfo` without the load average and the status built from it. */
  function CpuInfoOf(content: string): CpuInfo
  {
    var lines := Split(content, "\n");
    var section := Section(lines, "DUMP OF SERVICE cpuinfo", END_MARKER);
    var f := CpuScan(section, |section|, RoleOf);
    CpuInfo(f.processorCount, f.architecture, f.modelName, f.clockSpeed, TopProcessesOf(lines))
  }

  method ParseCpuInfo(content: string) returns (info: CpuInfo)
    ensures info == CpuInfoOf(content)
  {
    var lines := Split(content, "\n");
    var processorCount := 0;
    var architecture := "";
    var modelName := "";
    var clockSpeed := "";
    var cpuInfoSection := ExtractSection(lines, "DUMP OF SERVICE cpuinfo", END_MARKER);
    if |cpuInfoSection| > 0 {
      processorCount, architecture, modelName, clockSpeed := ReadCpuSection(cpuInfoSection, RoleOf);
    }
    var topProcesses := ParseTopProcesses(lines);
    info := CpuInfo(processorCount, architecture, modelName, clockSpeed, topProcesses);
  }

  // ----- memory summary -----

  /** The `/proc/meminfo` keys `parseMemoryInfo` reads. */
  datatype MemKey = MemTotal | MemAvailable | MemFree | Buffers | Cached | SwapTotal | SwapFree

  function KeyText(key: MemKey): string
  {
    match key
    case MemTotal => "MemTotal:"
    case MemAvailable => "MemAvailable:"
    case MemFree => "MemFree:"
    case Buffers => "Buffers:"
    case Cached => "Cached:"
    case SwapTotal => "SwapTotal:"
    case SwapFree => "SwapFree:"
  }

  /** The branch of the `when` in `parseMemoryInfo` a line of the meminfo section takes. */
  function MemKeyOf(line: string): Option<MemKey>
  {
    if StartsWith(line, "MemTotal:") then Some(MemTotal)
    else if StartsWith(line, "MemAvailable:") then Some(MemAvailable)
    else if StartsWith(line, "MemFree:") then Some(MemFree)
    else if StartsWith(line, "Buffers:") then Some(Buffers)
    else if StartsWith(line, "Cached:") then Some(Cached)
    else if StartsWith(line, "SwapTotal:") then Some(SwapTotal)
    else if StartsWith(line, "SwapFree:") then Some(SwapFree)
    else None
  }

  /** The seven variables `parseMemoryInfo` sets while it reads the meminfo section. */
  datatype MemFields = MemFields(
    totalMemory: int, availableMemory: int, freeMemory: int, buffers: int, cached: int, swapTotal: int, swapFree: int)

  function FieldOf(f: MemFields, key: MemKey): int
  {
    match key
    case MemTotal => f.totalMemory
    case MemAvailable => f.availableMemory
    case MemFree => f.freeMemory
    case Buffers => f.buffers
    case Cached => f.cached
    case SwapTotal => f.swapTotal
    case SwapFree => f.swapFree
  }

  /** One turn of the loop: a line with a key sets that key's variable to the line's value. */
  function MemStep(f: MemFields, kind: Option<MemKey>, line: string): MemFields
  {
    match kind
    case None => f
    case Some(MemTotal) => f.(totalMemory := ExtractMemoryValue(line))
    case Some(MemAvailable) => f.(availableMemory := ExtractMemoryValue(line))
    case Some(MemFree) => f.(freeMemory := ExtractMemoryValue(line))
    case Some(Buffers) => f.(buffers := ExtractMemoryValue(line))
    case Some(Cached) => f.(cached := ExtractMemoryValue(line))
    case Some(SwapTotal) => f.(swapTotal := ExtractMemoryValue(line))
    case Some(SwapFree) => f.(swapFree := ExtractMemoryValue(line))
  }

  /** The variables after the loop has read `lines[..hi]`, `keyOf` choosing each line's branch
      (`MemKeyOf` in `parseMemoryInfo`). */
  function MemScan(lines: seq<string>, hi: nat, keyOf: string -> Option<MemKey>): MemFields
    requires hi <= |lines|
  {
    if hi == 0 then MemFields(0, 0, 0, 0, 0, 0, 0)
    else MemStep(MemScan(lines, hi - 1, keyOf), keyOf(lines[hi - 1]), lines[hi - 1])
  }

  /** A line changes only its own key's variable. */
  lemma MemStepField(f: MemFields, kind: Option<MemKey>, line: string, key: MemKey)
    ensures FieldOf(MemStep(f, kind, line), key) == if kind == Some(key) then ExtractMemoryValue(line) else FieldOf(f, key)
  {
  }

  /** One figure: the value of the last line with its key, and 0 without one. */
  function FieldScan(lines: seq<string>, hi: nat, keyOf: string -> Option<MemKey>, key: MemKey): int
    requires hi <= |lines|
  {
    match LastOf(lines, hi, keyOf, Some(key))
    case Some(k) => ExtractMemoryValue(lines[k])
    case None => 0
  }

  /** Each figure the loop leaves is the value of the last line with its key, and 0 where there is
      none. */
  lemma {:induction false} MemScanField(lines: seq<string>, hi: nat, keyOf: string -> Option<MemKey>, key: MemKey)
    requires hi <= |lines|
    ensures FieldOf(MemScan(lines, hi, keyOf), key) == FieldScan(lines, hi, keyOf, key)
  {
    if hi > 0 {
      var line := lines[hi - 1];
      MemScanField(lines, hi - 1, keyOf, key);
      MemStepField(MemScan(lines, hi - 1, keyOf), keyOf(line), line, key);
      assert MemScan(lines, hi, keyOf) == MemStep(MemScan(lines, hi - 1, keyOf), keyOf(line), line);
      if keyOf(line) == Some(key) {
        assert FieldScan(lines, hi, keyOf, key) == ExtractMemoryValue(line);
      } else {
        assert LastOf(lines, hi, keyOf, Some(key)) == LastOf(lines, hi - 1, keyOf, Some(key));
      }
    }
  }

  /** No key's text starts with another's, so the order of the `when` branches does not matter:
      a line takes a key's branch exactly when it starts with that key. */
  lemma MemKeyOfSpec(line: string, key: MemKey)
    ensures MemKeyOf(line) == Some(key) <==> StartsWith(line, KeyText(key))
  {
    if StartsWith(line, KeyText(key)) {
      var got := MemKeyOf(line);
      assert got.Some? by {
        match key
        case MemTotal =>
        case MemAvailable =>
        case MemFree =>
        case Buffers =>
        case Cached =>
        case SwapTotal =>
        case SwapFree =>
      }
      assert StartsWith(line, KeyText(got.value));
      KeysDistinguished(line, key, got.value);
    }
  }

  /** Two key texts a line starts with are the same key: they differ at the first, fourth or fifth
      character. */
  lemma KeysDistinguished(line: string, a: MemKey, b: MemKey)
    requires StartsWith(line, KeyText(a)) && StartsWith(line, KeyText(b))
    ensures a == b
  {
    var ta, tb := KeyText(a), KeyText(b);
    assert |ta| >= 7 && |tb| >= 7;
    assert line[..|ta|] == ta && line[..|tb|] == tb;
    assert ta[0] == line[0] == tb[0];
    assert ta[3] == line[3] == tb[3];
    assert ta[4] == line[4] == tb[4];
  }

  /** The loop of `parseMemoryInfo` over the meminfo section, `keyOf` choosing each line's branch. */
  method ReadMemSection(section: seq<string>, keyOf: string -> Option<MemKey>)
    returns (totalMemory: int, availableMemory: int, freeMemory: int, buffers: int, cached: int, swapTotal: int, swapFree: int)
    ensures MemFields(totalMemory, availableMemory, freeMemory, buffers, cached, swapTotal, swapFree)
              == MemScan(section, |section|, keyOf)
  {
    totalMemory, availableMemory, freeMemory, buffers, cached, swapTotal, swapFree := 0, 0, 0, 0, 0, 0, 0;
    for k := 0 to |section|
      invariant MemFields(totalMemory, availableMemory, freeMemory, buffers, cached, swapTotal, swapFree)
                  == MemScan(section, k, keyOf)
    {
      var line := section[k];
      match keyOf(line)
      case Some(MemTotal) => totalMemory := ExtractMemoryValue(line);
      case Some(MemAvailable) => availableMemory := ExtractMemoryValue(line);
      case Some(MemFree) => freeMemory := ExtractMemoryValue(line);
      case Some(Buffers) => buffers := ExtractMemoryValue(line);
      case Some(Cached) => cached := ExtractMemoryValue(line);
      case Some(SwapTotal) => swapTotal := ExtractMemoryValue(line);
      case Some(SwapFree) => swapFree := ExtractMemoryValue(line);
      case None =>
    }
  }

  /** Kotlin `Long` division, which truncates toward zero. */
  function TruncDiv(a: int, b: int): int
    requires b > 0
  {
    if a >= 0 then a / b else -((-a) / b)
  }

  /** `availableMemory / 1024 / 1024`. */
  function AvailableMB(availableMemory: int): int
  {
    TruncDiv(TruncDiv(availableMemory, 1024), 1024)
  }

  /** `detectMemoryAbnormalStatus`'s list of issues; `formatPercent` is `String.format("%.1f", _)`. */
  function MemoryIssues(usagePercentage: real, availableMemory: int, formatPercent: real -> string): seq<string>
  {
    var usage :=
      if usagePercentage > 90.0 then ["内存使用率过高 (" + formatPercent(usagePercentage) + "%)"]
      else if usagePercentage > 80.0 then ["内存使用率较高 (" + formatPercent(usagePercentage) + "%)"]
      else [];
    var mb := AvailableMB(availableMemory);
    usage + (if mb < 100 then ["可用内存不足 (" + IntToString(mb) + "MB)"] else [])
  }

  function MemoryStatus(usagePercentage: real, availableMemory: int, formatPercent: real -> string): string
  {
    var issues := MemoryIssues(usagePercentage, availableMemory, formatPercent);
    if |issues| == 0 then "正常" else Join(issues, "; ")
  }

  lemma JoinHead(parts: seq<string>, d: string)
    requires |parts| >= 1 && |parts[0]| >= 1
    ensures |Join(parts, d)| >= 1 && Join(parts, d)[0] == parts[0][0]
  {
  }

  /** Below 100 MB means below 104857600 bytes, negative amounts included. */
  lemma AvailableMBSpec(availableMemory: int)
    ensures AvailableMB(availableMemory) < 100 <==> availableMemory < 104857600
    ensures availableMemory >= 0 ==> AvailableMB(availableMemory) == availableMemory / 1048576
  {
  }

  /** The status is `正常` exactly when usage is at most 80% and at least 100 MB are available. */
  lemma MemoryStatusNormal(usagePercentage: real, availableMemory: int, formatPercent: real -> string)
    ensures (MemoryStatus(usagePercentage, availableMemory, formatPercent) == "正常")
              <==> usagePercentage <= 80.0 && availableMemory >= 104857600
  {
    AvailableMBSpec(availableMemory);
    var issues := MemoryIssues(usagePercentage, availableMemory, formatPercent);
    if |issues| > 0 {
      JoinHead(issues, "; ");
      assert issues[0][0] == '内' || issues[0][0] == '可';
      assert Join(issues, "; ")[0] != "正常"[0];
    }
  }

  /** Usage above 80% is reported first, as high above 90% and as raised otherwise. */
  lemma MemoryStatusUsage(usagePercentage: real, availableMemory: int, formatPercent: real -> string)
    requires usagePercentage > 80.0
    ensures var level := if usagePercentage > 90.0 then "内存使用率过高 (" else "内存使用率较高 (";
            StartsWith(MemoryStatus(usagePercentage, availableMemory, formatPercent),
                       level + formatPercent(usagePercentage) + "%)")
  {
    var issues := MemoryIssues(usagePercentage, availableMemory, formatPercent);
    var status := MemoryStatus(usagePercentage, availableMemory, formatPercent);
    if |issues| == 1 {
      assert status == issues[0];
    } else {
      assert status == issues[0] + ("; " + Join(issues[1..], "; "));
    }
  }

  /** Less than 100 MB available is reported with the whole number of megabytes. */
  lemma MemoryStatusLow(usagePercentage: real, availableMemory: int, formatPercent: real -> string)
    requires availableMemory < 104857600
    ensures Contains(MemoryStatus(usagePercentage, availableMemory, formatPercent),
                     "可用内存不足 (" + IntToString(AvailableMB(availableMemory)) + "MB)")
  {
    AvailableMBSpec(availableMemory);
    var issues := MemoryIssues(usagePercentage, availableMemory, formatPercent);
    var status := MemoryStatus(usagePercentage, availableMemory, formatPercent);
    var low := "可用内存不足 (" + IntToString(AvailableMB(availableMemory)) + "MB)";
    if |issues| == 1 {
      assert status == "" + low + "";
      ContainsInside("", low, "");
    } else {
      assert issues[1..] == [low];
      assert Join(issues[1..], "; ") == low;
      assert status == (issues[0] + "; ") + low + "";
      ContainsInside(issues[0] + "; ", low, "");
    }
  }

  /** `(usedMemory.toDouble() / totalMemory.toDouble()) * 100`, 0 for a non-positive total. */
  function UsagePercentage(usedMemory: int, totalMemory: int): real
  {
    if totalMemory > 0 then (usedMemory as real / totalMemory as real) * 100.0 else 0.0
  }

  /** Used memory within the total gives a percentage between 0 and 100. */
  lemma UsagePercentageBounds(usedMemory: int, totalMemory: int)
    requires 0 <= usedMemory <= totalMemory
    ensures 0.0 <= UsagePercentage(usedMemory, totalMemory) <= 100.0
  {
    if totalMemory > 0 {
      var q := usedMemory as real / totalMemory as real;
      assert q * (totalMemory as real) == usedMemory as real;
      assert 0.0 <= q <= 1.0;
    }
  }

  /** The summary `parseMemoryInfo` builds from the seven figures (64-bit subtractions). */
  function MemorySummary(f: MemFields, formatPercent: real -> string): MemoryInfo
  {
    var swapUsed := Wrap64(f.swapTotal - f.swapFree);
    var usedMemory := Wrap64(f.totalMemory - f.availableMemory);
    var pct := UsagePercentage(usedMemory, f.totalMemory);
    MemoryInfo(f.totalMemory, f.availableMemory, usedMemory, f.freeMemory, f.buffers, f.cached,
               f.swapTotal, swapUsed, f.swapFree, pct, 0, MemoryStatus(pct, f.availableMemory, formatPercent))
  }

  const MEMINFO_MARKER := "DUMP OF SERVICE meminfo"

  /** `parseMemoryInfo`. */
  function MemoryInfoOf(content: string, formatPercent: real -> string): MemoryInfo
  {
    var lines := Split(content, "\n");
    var section := Section(lines, MEMINFO_MARKER, END_MARKER);
    MemorySummary(MemScan(section, |section|, MemKeyOf), formatPercent)
  }

  /** The figures derived once the section is read (lines 115-136 of `parseMemoryInfo`). */
  method SummarizeMemory(totalMemory: int, availableMemory: int, freeMemory: int, buffers: int, cached: int,
                         swapTotal: int, swapFree: int, formatPercent: real -> string)
    returns (info: MemoryInfo)
    ensures info == MemorySummary(MemFields(totalMemory, availableMemory, freeMemory, buffers, cached, swapTotal, swapFree),
                                  formatPercent)
  {
    var swapUsed := Wrap64(swapTotal - swapFree);
    var usedMemory := Wrap64(totalMemory - availableMemory);
    var memoryUsagePercentage := if totalMemory > 0 then (usedMemory as real / totalMemory as real) * 100.0 else 0.0;
    var abnormalStatus := MemoryStatus(memoryUsagePercentage, availableMemory, formatPercent);
    info := MemoryInfo(totalMemory, availableMemory, usedMemory, freeMemory, buffers, cached,
                       swapTotal, swapUsed, swapFree, memoryUsagePercentage, 0, abnormalStatus);
  }

  method ParseMemoryInfo(content: string, formatPercent: real -> string) returns (info: MemoryInfo)
    ensures info == MemoryInfoOf(content, formatPercent)
  {
    var lines := Split(content, "\n");
    var totalMemory, availableMemory, freeMemory, buffers, cached, swapTotal, swapFree := 0, 0, 0, 0, 0, 0, 0;
    var memInfoSection := ExtractSection(lines, MEMINFO_MARKER, END_MARKER);
    if |memInfoSection| > 0 {
      totalMemory, availableMemory, freeMemory, buffers, cached, swapTotal, swapFree :=
        ReadMemSection(memInfoSection, MemKeyOf);
    }
    assert MemFields(totalMemory, availableMemory, freeMemory, buffers, cached, swapTotal, swapFree)
        == MemScan(memInfoSection, |memInfoSection|, MemKeyOf);
    info := SummarizeMemory(totalMemory, availableMemory, freeMemory, buffers, cached, swapTotal, swapFree,
                            formatPercent);
  }

  /** No line with the start marker, no section. */
  lemma NoSection(lines: seq<string>, startMarker: string, endMarker: string)
    requires forall k :: 0 <= k < |lines| ==> !Contains(lines[k], startMarker)
    ensures Section(lines, startMarker, endMarker) == []
  {
    WindowStartSpec(lines, 0, StartTest(startMarker));
  }

  /** Without a meminfo section every figure is 0 and the status reports 0 MB available. */
  lemma NoMemInfo(content: string, formatPercent: real -> string)
    requires forall k :: 0 <= k < |Split(content, "\n")| ==> !Contains(Split(content, "\n")[k], MEMINFO_MARKER)
    ensures MemoryInfoOf(content, formatPercent)
              == MemoryInfo(0, 0, 0, 0, 0, 0, 0, 0, 0, 0.0, 0, "可用内存不足 (0MB)")
  {
    NoSection(Split(content, "\n"), MEMINFO_MARKER, END_MARKER);
    assert DigitChar(0) == '0';
    assert IntToString(0) == "0";
    assert AvailableMB(0) == 0;
    assert "可用内存不足 (" + "0" + "MB)" == "可用内存不足 (0MB)";
    assert MemoryIssues(0.0, 0, formatPercent) == ["可用内存不足 (0MB)"];
  }

  // ----- network dumps and the whole report -----

  /** `if (section.isNotEmpty()) parse(section.joinToString("\n")) else null` for the section of
      one service. */
  function ServiceDump<T>(lines: seq<string>, marker: string, parse: string -> T): Option<T>
  {
    var section := Section(lines, marker, END_MARKER);
    if |section| > 0 then Some(parse(Join(section, "\n"))) else None
  }

  /** A service whose marker no line carries has no dump. */
  lemma ServiceDumpAbsent<T>(lines: seq<string>, marker: string, parse: string -> T)
    requires forall k :: 0 <= k < |lines| ==> !Contains(lines[k], marker)
    ensures ServiceDump(lines, marker, parse).None?
  {
    NoSection(lines, marker, END_MARKER);
  }

  /** A service whose first marker line is followed by a line that neither carries the marker nor
      ends the section has a dump, read from a section that holds that line. */
  lemma ServiceDumpPresent<T>(lines: seq<string>, marker: string, parse: string -> T, i: nat)
    requires i + 1 < |lines| && Contains(lines[i], marker)
    requires forall k :: 0 <= k < i ==> !Contains(lines[k], marker)
    requires !Contains(lines[i + 1], marker) && !StartsWith(lines[i + 1], END_MARKER)
    ensures lines[i + 1] in Section(lines, marker, END_MARKER)
    ensures ServiceDump(lines, marker, parse) == Some(parse(Join(Section(lines, marker, END_MARKER), "\n")))
  {
    SectionSpec(lines, marker, END_MARKER, lines[i + 1]);
  }

  const WIFI_MARKER := "DUMP OF SERVICE wifi"
  const NETWORK_STACK_MARKER := "DUMP OF SERVICE network_stack"
  const NETSTATS_MARKER := "DUMP OF SERVICE netstats"
  const CONNECTIVITY_MARKER := "DUMP OF SERVICE connectivity"

  /** `parseNetworkDumps`: each service's section handed to its parser; the route dump is never
      filled from a bug report. */
  function NetworkDumpsOf(content: string): NetworkDumps
  {
    var lines := Split(content, "\n");
    NetworkDumps(
      ServiceDump(lines, WIFI_MARKER, WifiDumpParser.WifiDumpOf),
      ServiceDump(lines, NETWORK_STACK_MARKER, NetworkStackParser.NetworkStackOf),
      ServiceDump(lines, NETSTATS_MARKER, NetStatsParser.NetStatsOf),
      ServiceDump(lines, CONNECTIVITY_MARKER, ConnectivityParser.ConnectivityDumpOf),
      None)
  }

  /** Where no line carries the marker of any of the four services there are no dumps at all. */
  lemma NoNetworkDumps(content: string)
    requires forall k :: 0 <= k < |Split(content, "\n")| ==>
               var line := Split(content, "\n")[k];
               !Contains(line, WIFI_MARKER) && !Contains(line, NETWORK_STACK_MARKER)
               && !Contains(line, NETSTATS_MARKER) && !Contains(line, CONNECTIVITY_MARKER)
    ensures NetworkDumpsOf(content) == NetworkDumps(None, None, None, None, None)
  {
    var lines := Split(content, "\n");
    ServiceDumpAbsent(lines, WIFI_MARKER, WifiDumpParser.WifiDumpOf);
    ServiceDumpAbsent(lines, NETWORK_STACK_MARKER, NetworkStackParser.NetworkStackOf);
    ServiceDumpAbsent(lines, NETSTATS_MARKER, NetStatsParser.NetStatsOf);
    ServiceDumpAbsent(lines, CONNECTIVITY_MARKER, ConnectivityParser.ConnectivityDumpOf);
  }

  /** `parseBugreport`; `formatPercent` is `String.format("%.1f", _)`. */
  function BugreportOf(content: string, formatPercent: real -> string): BugreportData
  {
    BugreportData(CpuInfoOf(content), MemoryInfoOf(content, formatPercent), NetworkDumpsOf(content))
  }

  method ParseBugreport(bugreportContent: string, formatPercent: real -> string) returns (report: BugreportData)
    ensures report == BugreportOf(bugreportContent, formatPercent)
  {
    var cpuInfo := ParseCpuInfo(bugreportContent);
    var memoryInfo := ParseMemoryInfo(bugreportContent, formatPercent);
    report := BugreportData(cpuInfo, memoryInfo, NetworkDumpsOf(bugreportContent));
  }
}
