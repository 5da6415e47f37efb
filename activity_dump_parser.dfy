/** `ActivityDumpParser`: rebuilds the display -> task -> activity hierarchy from the text of
    `dumpsys activity activities`. Each parsing routine is a method with the same loop as the
    Kotlin code, proved equal to a function that states its result, and the properties of the
    parse are lemmas about those functions. */
module ActivityDumpParser {
  import opened Text
  import opened Patterns
  import opened ActivityDumpModel

  const TaskMarker: string := "* Task{"
  const DisplayMarker: string := "Display #"
  const ResumedSectionMarker: string := "Resumed activities in task display areas"
  const ResumedActivityMarker: string := "ResumedActivity:"

  /** A trimmed line at which a task's body ends and the outer scan takes over again. */
  predicate IsBoundary(line: string)
  {
    StartsWith(line, TaskMarker) || StartsWith(line, DisplayMarker)
    || StartsWith(line, ResumedSectionMarker) || StartsWith(line, ResumedActivityMarker)
  }

  /** The first boundary line at or after `from`, or `|lines|` when there is none. */
  function NextBoundary(lines: seq<string>, from: nat): (j: nat)
    requires from <= |lines|
    ensures from <= j <= |lines|
    ensures j < |lines| ==> IsBoundary(Trim(lines[j]))
    ensures forall k {:trigger IsBoundary(Trim(lines[k]))} :: from <= k < j ==> !IsBoundary(Trim(lines[k]))
  {
    FirstTrimmedFrom(lines, from, IsBoundary)
  }

  /** `skipToNextTask`: the index of the first boundary line after `start`, or `|lines|`. */
  method SkipToNextTask(lines: seq<string>, start: nat) returns (j: nat)
    requires start < |lines|
    ensures start < j <= |lines|
    ensures j < |lines| ==> IsBoundary(Trim(lines[j]))
    ensures forall k {:trigger IsBoundary(Trim(lines[k]))} :: start < k < j ==> !IsBoundary(Trim(lines[k]))
    ensures j == NextBoundary(lines, start + 1)
  {
    j := start + 1;
    while j < |lines|
      invariant start + 1 <= j <= NextBoundary(lines, start + 1)
    {
      var line := Trim(lines[j]);
      if IsBoundary(line) {
        return;
      }
      j := j + 1;
    }
  }

  /** `Display #(\d+)`. */
  const DisplayIdPattern: Pattern := KeyedRun(DisplayMarker, Digit)

  /** `parseDisplayId`: the number after the first `Display #` that is followed by a digit, or -1
      when there is none or it does not fit an Int. */
  function ParseDisplayId(line: string): (id: int)
    ensures id >= -1
    ensures KeyedValue(line, DisplayMarker, Digit).None? ==> id == -1
    ensures id != -1 ==> KeyedValue(line, DisplayMarker, Digit).Some?
                         && ToIntOrNull(KeyedValue(line, DisplayMarker, Digit).value) == Some(id)
    ensures var digits := KeyedValue(line, DisplayMarker, Digit);
            digits.Some? && ToIntOrNull(digits.value).Some? ==> Some(id) == ToIntOrNull(digits.value)
    ensures var digits := KeyedValue(line, DisplayMarker, Digit);
            digits.Some? && ToIntOrNull(digits.value).None? ==> id == -1
  {
    FindKeyedRun(DisplayMarker, Digit, line);
    KeyedDigitsNonNegative(DisplayMarker, line);
    IntOr(FindGroup(DisplayIdPattern, line, 1), -1)
  }

  // ----- Task headers -----

  /** `(true|false)`. */
  const TrueOrFalse: Item := Alt([Lit("true"), Lit("false")])

  /** `(?:\s+name(value))?`: an optional field of the header, captured as group `n`. */
  function OptionalField(name: string, n: nat, value: Item): Item
  {
    Opt([Plus(Space), Lit(name), Group(n, [value])])
  }

  /** Task header pattern: id, number and type, then eight optional fields in a fixed order. */
  const TaskHeaderPattern: Pattern :=
    [ Lit("Task{"), Group(1, [Plus(Word)]), Lit(" #"), Group(2, [Plus(Digit)]),
      Lit(" type="), Group(3, [Plus(Word)]),
      OptionalField("A=", 4, Plus(NonSpace)),
      OptionalField("U=", 5, Plus(Digit)),
      OptionalField("rootTaskId=", 6, Plus(Digit)),
      OptionalField("visible=", 7, TrueOrFalse),
      OptionalField("visibleRequested=", 8, TrueOrFalse),
      OptionalField("mode=", 9, Plus(NonSpace)),
      OptionalField("translucent=", 10, TrueOrFalse),
      OptionalField("sz=", 11, Plus(Digit)) ]

  /** `match?.groupValues?.get(n)`. */
  function Captured(m: Option<Found>, n: nat): Option<string>
  {
    match m
    case Some(f) => Some(GroupValue(f, n))
    case None => None
  }

  /** The header fields of `parseTask`, with an empty body. */
  function TaskFromHeader(taskLine: string): (t: TaskInfo)
    ensures Find(TaskHeaderPattern, taskLine).None? ==>
              t.taskId == "" && t.taskNumber == -1 && t.taskType == "" && t.affinity == ""
              && t.userId == 0 && t.rootTaskId == -1 && !t.visible && !t.visibleRequested
              && t.mode == "" && !t.translucent && t.size == 0
    ensures t.bounds == "" && t.lastNonFullscreenBounds == "" && !t.isSleeping
            && t.topResumedActivity == "" && t.activities == []
  {
    var m := Find(TaskHeaderPattern, taskLine);
    TaskInfo(
      taskId := StringOr(Captured(m, 1), ""),
      taskNumber := IntOr(Captured(m, 2), -1),
      taskType := StringOr(Captured(m, 3), ""),
      affinity := StringOr(Captured(m, 4), ""),
      userId := IntOr(Captured(m, 5), 0),
      visible := Captured(m, 7) == Some("true"),
      visibleRequested := Captured(m, 8) == Some("true"),
      mode := StringOr(Captured(m, 9), ""),
      translucent := Captured(m, 10) == Some("true"),
      size := IntOr(Captured(m, 11), 0),
      bounds := "",
      lastNonFullscreenBounds := "",
      isSleeping := false,
      topResumedActivity := "",
      rootTaskId := IntOr(Captured(m, 6), -1),
      activities := [])
  }

  /** A header without `Task{` matches nothing, so every header field keeps its default. */
  lemma HeaderWithoutTask(taskLine: string)
    requires !Contains(taskLine, "Task{")
    ensures TaskFromHeader(taskLine) == TaskFromHeader("")
  {
    FindWithoutLit("Task{", TaskHeaderPattern[1..], taskLine);
    FindWithoutLit("Task{", TaskHeaderPattern[1..], "");
    assert TaskHeaderPattern == [Lit("Task{")] + TaskHeaderPattern[1..];
  }

  // ----- Activity records -----

  /** `Hist\s+#(\d+):\s+ActivityRecord\{(\w+) u(\d+) ([^\s]+) t(\d+)\}`. */
  const HistPattern: Pattern :=
    [ Lit("Hist"), Plus(Space), Lit("#"), Group(1, [Plus(Digit)]), Lit(":"), Plus(Space),
      Lit("ActivityRecord{"), Group(2, [Plus(Word)]), Lit(" u"), Group(3, [Plus(Digit)]), Lit(" "),
      Group(4, [Plus(NonSpace)]), Lit(" t"), Group(5, [Plus(Digit)]), Lit("}") ]

  /** `ProcessRecord\{\w+ (\d+):([^/]+)/`. */
  const ProcessPattern: Pattern :=
    [ Lit("ProcessRecord{"), Plus(Word), Lit(" "), Group(1, [Plus(Digit)]), Lit(":"),
      Group(2, [Plus(Not(Chars("/")))]), Lit("/") ]

  /** The package part of a component `package/activity`: the first piece of `split("/")`. */
  function ComponentPackage(component: string): (p: string)
    ensures p == SubstringBefore(component, "/")
  {
    SplitHead(component, "/");
    Split(component, "/")[0]
  }

  /** The activity part of a component: the second piece of `split("/")`, or "" without a `/`. */
  function ComponentActivity(component: string): (a: string)
    ensures !Contains(component, "/") ==> a == ""
    ensures Contains(component, "/") ==> a == SubstringBefore(SubstringAfter(component, "/"), "/")
  {
    SplitHead(component, "/");
    var parts := Split(component, "/");
    if |parts| > 1 then parts[1] else ""
  }

  /** A component with one `/` is its package, the `/`, and its activity. */
  lemma ComponentRoundTrip(component: string)
    requires Contains(component, "/") && !Contains(SubstringAfter(component, "/"), "/")
    ensures ComponentPackage(component) + "/" + ComponentActivity(component) == component
  {
    SubstringAroundDelimiter(component, "/");
    SubstringAroundDelimiter(SubstringAfter(component, "/"), "/");
  }

  /** A trimmed line at which an activity's detail look-ahead stops. */
  predicate EndsDetails(line: string)
  {
    Contains(line, "Hist  #") || StartsWith(line, TaskMarker) || StartsWith(line, "topResumedActivity=")
  }

  /** Where the look-ahead after the Hist line at `start` ends: at the first stop line, after at most
      four lines, or at the end of the input. */
  function DetailEnd(lines: seq<string>, start: nat): (e: nat)
    requires start < |lines|
    ensures start < e <= |lines| && e <= start + 5
    ensures e < |lines| && e < start + 5 ==> EndsDetails(Trim(lines[e]))
    ensures forall k {:trigger EndsDetails(Trim(lines[k]))} :: start < k < e ==> !EndsDetails(Trim(lines[k]))
  {
    Min(FirstTrimmedFrom(lines, start + 1, EndsDetails), start + 5)
  }

  /** What the look-ahead collects: the intent line, the process record line, and the pid and
      process name read from the latter. */
  datatype Details = Details(intent: string, processRecord: string, processName: string, pid: int)

  const NoDetails: Details := Details("", "", "", -1)

  function DetailStep(d: Details, line: string): Details
  {
    if StartsWith(line, "Intent {") then d.(intent := line)
    else if StartsWith(line, "ProcessRecord{") then
      match Find(ProcessPattern, line)
      case Some(m) => d.(processRecord := line, pid := IntOr(Some(GroupValue(m, 1)), -1),
                         processName := GroupValue(m, 2))
      case None => d.(processRecord := line)
    else d
  }

  /** The details gathered from the trimmed lines in `[from, hi)`. */
  function ScanDetails(lines: seq<string>, from: nat, hi: nat): Details
    requires hi <= |lines|
    decreases hi
  {
    if hi <= from then NoDetails
    else DetailStep(ScanDetails(lines, from, hi - 1), Trim(lines[hi - 1]))
  }

  /** One more line of the look-ahead is one more step. */
  lemma ScanDetailsNext(lines: seq<string>, from: nat, j: nat)
    requires from <= j < |lines|
    ensures ScanDetails(lines, from, j + 1) == DetailStep(ScanDetails(lines, from, j), Trim(lines[j]))
  {
  }

  /** One look-ahead line of `parseActivityRecord`: an intent line, or a process record line with
      the pid and process name it names. */
  method ReadDetailLine(line: string, intent: string, processRecord: string, processName: string, pid: int)
    returns (intent': string, processRecord': string, processName': string, pid': int)
    ensures Details(intent', processRecord', processName', pid')
            == DetailStep(Details(intent, processRecord, processName, pid), line)
  {
    intent', processRecord', processName', pid' := intent, processRecord, processName, pid;
    if StartsWith(line, "Intent {") {
      intent' := line;
    } else if StartsWith(line, "ProcessRecord{") {
      processRecord' := line;
      var processMatch := Find(ProcessPattern, line);
      if processMatch.Some? {
        pid' := IntOr(Some(GroupValue(processMatch.value, 1)), -1);
        processName' := GroupValue(processMatch.value, 2);
      }
    }
  }

  /** The activity record for the Hist line `line` found at index `start`, or `None` when the line
      does not match the record pattern. */
  function ActivityAt(line: string, lines: seq<string>, start: nat): (r: Option<ActivityRecord>)
    requires start < |lines|
    ensures r.None? <==> Find(HistPattern, line).None?
    ensures r.Some? ==> !r.value.resumed && r.value.uid == -1
  {
    match Find(HistPattern, line)
    case None => None
    case Some(m) =>
      var component := GroupValue(m, 4);
      var d := ScanDetails(lines, start + 1, DetailEnd(lines, start));
      Some(NewActivityRecord(
        recordId := GroupValue(m, 2),
        historyIndex := IntOr(Some(GroupValue(m, 1)), -1),
        userId := IntOr(Some(GroupValue(m, 3)), 0),
        packageName := ComponentPackage(component),
        activityName := ComponentActivity(component),
        taskId := IntOr(Some(GroupValue(m, 5)), -1),
        intent := d.intent,
        processRecord := d.processRecord,
        pid := d.pid,
        processName := d.processName))
  }

  /** `parseActivityRecord`: the record and up to four lines of details after it. */
  method ParseActivityRecord(line: string, lines: seq<string>, start: nat) returns (r: Option<ActivityRecord>)
    requires start < |lines|
    ensures r == ActivityAt(line, lines, start)
  {
    var hist := Find(HistPattern, line);
    if hist.None? {
      return None;
    }
    var intent, processRecord, processName, pid := "", "", "", -1;
    var j := start + 1;
    while j < |lines| && j < start + 5
      invariant start + 1 <= j <= DetailEnd(lines, start)
      invariant Details(intent, processRecord, processName, pid) == ScanDetails(lines, start + 1, j)
    {
      var detailLine := Trim(lines[j]);
      if EndsDetails(detailLine) {
        break;
      }
      intent, processRecord, processName, pid := ReadDetailLine(detailLine, intent, processRecord, processName, pid);
      ScanDetailsNext(lines, start + 1, j);
      j := j + 1;
    }
    var m := hist.value;
    var historyIndex := IntOr(Some(GroupValue(m, 1)), -1);
    var recordId := GroupValue(m, 2);
    var userId := IntOr(Some(GroupValue(m, 3)), 0);
    var component := GroupValue(m, 4);
    var taskId := IntOr(Some(GroupValue(m, 5)), -1);
    var packageName := ComponentPackage(component);
    var activityName := ComponentActivity(component);

    r := Some(NewActivityRecord(recordId, historyIndex, userId, packageName, activityName, taskId,
                                intent, processRecord, pid, processName));
  }

  // ----- Task bodies -----

  /** The fields a task's body lines set. */
  datatype TaskBody = TaskBody(bounds: string, lastNonFullscreenBounds: string, isSleeping: bool,
                               topResumedActivity: string, activities: seq<ActivityRecord>)

  const EmptyBody: TaskBody := TaskBody("", "", false, "", [])

  /** A body line that introduces an activity record. */
  predicate IsHistLine(line: string)
  {
    Contains(line, "Hist  #") && Contains(line, "ActivityRecord{")
  }

  /** What the trimmed body line `line` adds: a field it sets, or `act`, the activity record it
      introduces when it is a Hist line. */
  function BodyLineStep(b: TaskBody, line: string, act: Option<ActivityRecord>): (r: TaskBody)
    ensures r.activities == b.activities || (act.Some? && r.activities == b.activities + [act.value])
  {
    if StartsWith(line, "mBounds=") then b.(bounds := SubstringAfter(line, "mBounds="))
    else if StartsWith(line, "mLastNonFullscreenBounds=") then
      b.(lastNonFullscreenBounds := SubstringAfter(line, "mLastNonFullscreenBounds="))
    else if StartsWith(line, "isSleeping=") then b.(isSleeping := SubstringAfter(line, "isSleeping=") == "true")
    else if StartsWith(line, "topResumedActivity=") then
      b.(topResumedActivity := SubstringAfter(line, "topResumedActivity="))
    else if IsHistLine(line) then
      match act
      case Some(a) => b.(activities := b.activities + [a])
      case None => b
    else b
  }

  /** Body line `j`. */
  function TaskBodyStep(b: TaskBody, lines: seq<string>, j: nat): TaskBody
    requires j < |lines|
  {
    var line := Trim(lines[j]);
    BodyLineStep(b, line, if IsHistLine(line) then ActivityAt(line, lines, j) else None)
  }

  /** The body read from the lines in `[from, hi)`. */
  function ScanTaskBody(lines: seq<string>, from: nat, hi: nat): TaskBody
    requires hi <= |lines|
    decreases hi
  {
    if hi <= from then EmptyBody else TaskBodyStep(ScanTaskBody(lines, from, hi - 1), lines, hi - 1)
  }

  /** One more line of the body is one more step. */
  lemma ScanTaskBodyNext(lines: seq<string>, from: nat, j: nat)
    requires from <= j < |lines|
    ensures ScanTaskBody(lines, from, j + 1) == TaskBodyStep(ScanTaskBody(lines, from, j), lines, j)
  {
  }

  /** No activity a task body collects is marked resumed. */
  lemma {:induction false} ScanTaskBodyNoResumed(lines: seq<string>, from: nat, hi: nat)
    requires hi <= |lines|
    ensures forall k :: 0 <= k < |ScanTaskBody(lines, from, hi).activities|
                        ==> !ScanTaskBody(lines, from, hi).activities[k].resumed
    decreases hi
  {
    if from < hi {
      ScanTaskBodyNoResumed(lines, from, hi - 1);
      var b := ScanTaskBody(lines, from, hi - 1);
      var line := Trim(lines[hi - 1]);
      var act := if IsHistLine(line) then ActivityAt(line, lines, hi - 1) else None;
      assert ScanTaskBody(lines, from, hi) == BodyLineStep(b, line, act);
      AppendKeepsNoResumed(b, line, act);
    }
  }

  lemma AppendKeepsNoResumed(b: TaskBody, line: string, act: Option<ActivityRecord>)
    requires forall k :: 0 <= k < |b.activities| ==> !b.activities[k].resumed
    requires act.Some? ==> !act.value.resumed
    ensures var r := BodyLineStep(b, line, act);
            forall k :: 0 <= k < |r.activities| ==> !r.activities[k].resumed
  {
    var r := BodyLineStep(b, line, act);
    if r.activities != b.activities {
      assert r.activities == b.activities + [act.value];
    }
  }

  /** Where the body of a task whose header is at `start` ends. */
  function TaskEnd(lines: seq<string>, start: nat): (e: nat)
    requires start < |lines|
    ensures start < e <= |lines|
  {
    NextBoundary(lines, start + 1)
  }

  /** A task whose header `taskLine` is at index `start`. */
  function TaskAt(taskLine: string, lines: seq<string>, start: nat): TaskInfo
    requires start < |lines|
  {
    WithBody(TaskFromHeader(taskLine), ScanTaskBody(lines, start + 1, TaskEnd(lines, start)))
  }

  /** Task `t` with the fields its body sets taken from `b`. */
  function WithBody(t: TaskInfo, b: TaskBody): TaskInfo
  {
    t.(bounds := b.bounds, lastNonFullscreenBounds := b.lastNonFullscreenBounds,
       isSleeping := b.isSleeping, topResumedActivity := b.topResumedActivity, activities := b.activities)
  }

  /** One body line of `parseTask`: the `when` over the trimmed line, which sets one field or reads
      an activity record. */
  method ReadBodyLine(b: TaskBody, line: string, lines: seq<string>, j: nat) returns (r: TaskBody)
    requires j < |lines| && line == Trim(lines[j])
    ensures r == TaskBodyStep(b, lines, j)
  {
    r := b;
    if StartsWith(line, "mBounds=") {
      r := r.(bounds := SubstringAfter(line, "mBounds="));
    } else if StartsWith(line, "mLastNonFullscreenBounds=") {
      r := r.(lastNonFullscreenBounds := SubstringAfter(line, "mLastNonFullscreenBounds="));
    } else if StartsWith(line, "isSleeping=") {
      r := r.(isSleeping := SubstringAfter(line, "isSleeping=") == "true");
    } else if StartsWith(line, "topResumedActivity=") {
      r := r.(topResumedActivity := SubstringAfter(line, "topResumedActivity="));
    } else if IsHistLine(line) {
      var activity := ParseActivityRecord(line, lines, j);
      if activity.Some? {
        r := r.(activities := r.activities + [activity.value]);
      }
    }
  }

  /** The body loop of `parseTask`: the lines after the header up to the next boundary. */
  method ReadTaskBody(lines: seq<string>, startIndex: nat) returns (body: TaskBody)
    requires startIndex < |lines|
    ensures body == ScanTaskBody(lines, startIndex + 1, TaskEnd(lines, startIndex))
  {
    body := EmptyBody;
    var j := startIndex + 1;
    while j < |lines|
      invariant startIndex + 1 <= j <= TaskEnd(lines, startIndex)
      invariant body == ScanTaskBody(lines, startIndex + 1, j)
    {
      var line := Trim(lines[j]);
      if IsBoundary(line) {
        break;
      }
      body := ReadBodyLine(body, line, lines, j);
      ScanTaskBodyNext(lines, startIndex + 1, j);
      j := j + 1;
    }
    assert j == TaskEnd(lines, startIndex);
  }

  /** `parseTask`: the header fields, then the body lines up to the next boundary. */
  method ParseTask(taskLine: string, lines: seq<string>, startIndex: nat) returns (t: TaskInfo)
    requires startIndex < |lines|
    ensures t == TaskAt(taskLine, lines, startIndex)
  {
    var header := TaskFromHeader(taskLine);
    var body := ReadTaskBody(lines, startIndex);
    t := WithBody(header, body);
  }

  /** The parser never marks an activity resumed, so a parsed task earns nothing from the
      per-resumed-activity term of its priority. */
  lemma ParsedTaskHasNoResumed(taskLine: string, lines: seq<string>, start: nat)
    requires start < |lines|
    ensures CountResumed(TaskAt(taskLine, lines, start).activities) == 0
    ensures Priority(TaskAt(taskLine, lines, start))
            == Priority(TaskAt(taskLine, lines, start).(activities := []))
               + (if !TaskAt(taskLine, lines, start).isSleeping
                     && TaskAt(taskLine, lines, start).activities != [] then 400 else 0)
  {
    ScanTaskBodyNoResumed(lines, start + 1, TaskEnd(lines, start));
  }

  /** Looking for the first stop line gives the same answer on a prefix that ends at a stop line. */
  lemma {:induction false} FirstStopInPrefix(lines: seq<string>, from: nat, e: nat, stop: string -> bool)
    requires from <= e <= |lines|
    requires e == |lines| || stop(Trim(lines[e]))
    ensures FirstTrimmedFrom(lines, from, stop) == FirstTrimmedFrom(lines[..e], from, stop)
    decreases e - from
  {
    if from < e {
      assert lines[..e][from] == lines[from];
      if !stop(Trim(lines[from])) {
        FirstStopInPrefix(lines, from + 1, e, stop);
      }
    }
  }

  lemma {:induction false} ScanDetailsInPrefix(lines: seq<string>, from: nat, hi: nat, e: nat)
    requires hi <= e <= |lines|
    ensures ScanDetails(lines, from, hi) == ScanDetails(lines[..e], from, hi)
    decreases hi
  {
    if from < hi {
      ScanDetailsInPrefix(lines, from, hi - 1, e);
      var line := Trim(lines[hi - 1]);
      assert Trim(lines[..e][hi - 1]) == line;
      var d := ScanDetails(lines, from, hi - 1);
      assert ScanDetails(lines, from, hi) == DetailStep(d, line);
      assert ScanDetails(lines[..e], from, hi) == DetailStep(d, line);
    }
  }

  lemma DetailEndInPrefix(lines: seq<string>, j: nat, e: nat)
    requires j < e <= |lines|
    requires e == |lines| || EndsDetails(Trim(lines[e]))
    ensures DetailEnd(lines, j) == DetailEnd(lines[..e], j)
  {
    FirstStopInPrefix(lines, j + 1, e, EndsDetails);
  }

  /** An activity record reads nothing at or after a line that ends its look-ahead. */
  lemma ActivityInPrefix(line: string, lines: seq<string>, j: nat, e: nat)
    requires j < e <= |lines|
    requires e == |lines| || EndsDetails(Trim(lines[e]))
    ensures ActivityAt(line, lines, j) == ActivityAt(line, lines[..e], j)
  {
    DetailEndInPrefix(lines, j, e);
    ScanDetailsInPrefix(lines, j + 1, DetailEnd(lines, j), e);
    ActivitySameDetails(line, lines, lines[..e], j);
  }

  lemma ActivitySameDetails(line: string, l1: seq<string>, l2: seq<string>, j: nat)
    requires j < |l1| && j < |l2| && DetailEnd(l1, j) == DetailEnd(l2, j)
    requires ScanDetails(l1, j + 1, DetailEnd(l1, j)) == ScanDetails(l2, j + 1, DetailEnd(l2, j))
    ensures ActivityAt(line, l1, j) == ActivityAt(line, l2, j)
  {
  }

  lemma TaskBodyStepInPrefix(b: TaskBody, lines: seq<string>, j: nat, e: nat)
    requires j < e <= |lines|
    requires e == |lines| || EndsDetails(Trim(lines[e]))
    ensures TaskBodyStep(b, lines, j) == TaskBodyStep(b, lines[..e], j)
  {
    var line := Trim(lines[j]);
    assert Trim(lines[..e][j]) == line;
    ActivityInPrefix(line, lines, j, e);
  }

  /** Two inputs whose body lines in `[from, hi)` all have the same effect give the same body. */
  lemma {:induction false} ScanTaskBodySameSteps(l1: seq<string>, l2: seq<string>, from: nat, hi: nat)
    requires hi <= |l1| && hi <= |l2|
    requires forall j, b :: from <= j < hi ==> TaskBodyStep(b, l1, j) == TaskBodyStep(b, l2, j)
    ensures ScanTaskBody(l1, from, hi) == ScanTaskBody(l2, from, hi)
    decreases hi
  {
    if from < hi {
      ScanTaskBodySameSteps(l1, l2, from, hi - 1);
    }
  }

  lemma ScanTaskBodyInPrefix(lines: seq<string>, from: nat, hi: nat, e: nat)
    requires hi <= e <= |lines|
    requires e == |lines| || EndsDetails(Trim(lines[e]))
    ensures ScanTaskBody(lines, from, hi) == ScanTaskBody(lines[..e], from, hi)
  {
    forall j, b | from <= j < hi
      ensures TaskBodyStep(b, lines, j) == TaskBodyStep(b, lines[..e], j)
    {
      TaskBodyStepInPrefix(b, lines, j, e);
    }
    ScanTaskBodySameSteps(lines, lines[..e], from, hi);
  }

  /** A task body stops at the boundary that follows it. When that boundary is the next task's
      header (or the input ends), that task is the same whatever follows: nothing of the next task
      leaks into it. */
  lemma TaskIsLocal(taskLine: string, lines: seq<string>, start: nat)
    requires start < |lines|
    requires var e := TaskEnd(lines, start); e == |lines| || StartsWith(Trim(lines[e]), TaskMarker)
    ensures var e := TaskEnd(lines, start);
            TaskAt(taskLine, lines, start) == TaskAt(taskLine, lines[..e], start)
  {
    var e := TaskEnd(lines, start);
    FirstStopInPrefix(lines, start + 1, e, IsBoundary);
    assert TaskEnd(lines[..e], start) == e;
    ScanTaskBodyInPrefix(lines, start + 1, e, e);
    TaskAtSameBody(taskLine, lines, lines[..e], start);
  }

  lemma TaskAtSameBody(taskLine: string, l1: seq<string>, l2: seq<string>, start: nat)
    requires start < |l1| && start < |l2| && TaskEnd(l1, start) == TaskEnd(l2, start)
    requires ScanTaskBody(l1, start + 1, TaskEnd(l1, start)) == ScanTaskBody(l2, start + 1, TaskEnd(l2, start))
    ensures TaskAt(taskLine, l1, start) == TaskAt(taskLine, l2, start)
  {
  }

  // ----- The resumed-activities section -----

  /** A trimmed line that ends the resumed-activities section. */
  predicate EndsResumed(line: string)
  {
    line == "" || StartsWith(line, ResumedActivityMarker)
  }

  /** The index at which the section whose header is at `start` ends. */
  function ResumedEnd(lines: seq<string>, start: nat): (j: nat)
    requires start < |lines|
    ensures start < j <= |lines|
    ensures j < |lines| ==> EndsResumed(Trim(lines[j]))
    ensures forall k {:trigger EndsResumed(Trim(lines[k]))} :: start < k < j ==> !EndsResumed(Trim(lines[k]))
  {
    FirstTrimmedFrom(lines, start + 1, EndsResumed)
  }

  /** The activities named by the `Resumed:` lines among `[from, hi)`: the text after "Resumed: ". */
  function ResumedIn(lines: seq<string>, from: nat, hi: nat): (r: seq<string>)
    requires hi <= |lines|
    decreases hi
  {
    if hi <= from then []
    else
      var line := Trim(lines[hi - 1]);
      ResumedIn(lines, from, hi - 1) + (if StartsWith(line, "Resumed:") then [SubstringAfter(line, "Resumed: ")] else [])
  }

  /** Every entry comes from a `Resumed:` line in the range, and such a line written with the usual
      space contributes exactly its remainder. */
  lemma ResumedEntries(lines: seq<string>, from: nat, hi: nat)
    requires hi <= |lines|
    ensures forall a :: a in ResumedIn(lines, from, hi) ==>
              exists k :: from <= k < hi && StartsWith(Trim(lines[k]), "Resumed:")
                          && a == SubstringAfter(Trim(lines[k]), "Resumed: ")
    ensures forall k :: from <= k < hi && StartsWith(Trim(lines[k]), "Resumed: ") ==>
              Trim(lines[k])[9..] in ResumedIn(lines, from, hi)
  {
    ResumedEntriesFromLines(lines, from, hi);
    ResumedLinesGiveEntries(lines, from, hi);
  }

  lemma {:induction false} ResumedEntriesFromLines(lines: seq<string>, from: nat, hi: nat)
    requires hi <= |lines|
    ensures forall a :: a in ResumedIn(lines, from, hi) ==>
              exists k :: from <= k < hi && StartsWith(Trim(lines[k]), "Resumed:")
                          && a == SubstringAfter(Trim(lines[k]), "Resumed: ")
    decreases hi
  {
    if from < hi {
      ResumedEntriesFromLines(lines, from, hi - 1);
      var line := Trim(lines[hi - 1]);
      var prev := ResumedIn(lines, from, hi - 1);
      var extra := if StartsWith(line, "Resumed:") then [SubstringAfter(line, "Resumed: ")] else [];
      assert ResumedIn(lines, from, hi) == prev + extra;
    }
  }

  lemma {:induction false} ResumedLinesGiveEntries(lines: seq<string>, from: nat, hi: nat)
    requires hi <= |lines|
    ensures forall k :: from <= k < hi && StartsWith(Trim(lines[k]), "Resumed: ") ==>
              Trim(lines[k])[9..] in ResumedIn(lines, from, hi)
    decreases hi
  {
    if from < hi {
      ResumedLinesGiveEntries(lines, from, hi - 1);
      var line := Trim(lines[hi - 1]);
      var prev := ResumedIn(lines, from, hi - 1);
      var extra := if StartsWith(line, "Resumed:") then [SubstringAfter(line, "Resumed: ")] else [];
      assert ResumedIn(lines, from, hi) == prev + extra;
      if StartsWith(line, "Resumed: ") {
        assert line[..8] == line[..9][..8];
        SubstringAfterPrefix(line, "Resumed: ");
        assert extra == [line[9..]];
      }
    }
  }

  /** `parseResumedActivities`: appends the section's entries to `resumed` and returns the index of
      the line that ended the section. */
  method ParseResumedActivities(lines: seq<string>, startIndex: nat, resumed: seq<string>)
    returns (j: nat, resumedOut: seq<string>)
    requires startIndex < |lines|
    ensures j == ResumedEnd(lines, startIndex)
    ensures resumedOut == resumed + ResumedIn(lines, startIndex + 1, j)
  {
    resumedOut := resumed;
    j := startIndex + 1;
    while j < |lines|
      invariant startIndex + 1 <= j <= ResumedEnd(lines, startIndex)
      invariant resumedOut == resumed + ResumedIn(lines, startIndex + 1, j)
    {
      var line := Trim(lines[j]);
      if EndsResumed(line) {
        break;
      }
      if StartsWith(line, "Resumed:") {
        var activity := SubstringAfter(line, "Resumed: ");
        resumedOut := resumedOut + [activity];
      }
      j := j + 1;
    }
  }

  // ----- De-duplication and ordering of a display's tasks -----

  /** The key `"${taskId}_${taskNumber}"`. */
  function TaskKey(t: TaskInfo): string
  {
    t.taskId + "_" + IntToString(t.taskNumber)
  }

  predicate DistinctKeys(ts: seq<TaskInfo>)
  {
    DistinctBy(ts, TaskKey)
  }

  /** `calculateTaskCompletenesScore`: one point per non-empty descriptive field, two per activity. */
  function CompletenessScore(t: TaskInfo): (score: nat)
    ensures 2 * |t.activities| <= score <= 2 * |t.activities| + 6
  {
    (if t.bounds != "" then 1 else 0) + (if t.lastNonFullscreenBounds != "" then 1 else 0)
    + (if t.topResumedActivity != "" then 1 else 0) + (if t.affinity != "" then 1 else 0)
    + (if t.taskType != "" then 1 else 0) + (if t.mode != "" then 1 else 0)
    + 2 * |t.activities|
  }

  method CalculateTaskCompletenessScore(task: TaskInfo) returns (score: int)
    ensures score == CompletenessScore(task)
  {
    score := 0;
    if task.bounds != "" { score := score + 1; }
    if task.lastNonFullscreenBounds != "" { score := score + 1; }
    if task.topResumedActivity != "" { score := score + 1; }
    if task.affinity != "" { score := score + 1; }
    if task.taskType != "" { score := score + 1; }
    if task.mode != "" { score := score + 1; }
    score := score + |task.activities| * 2;
  }

  /** `chooseBetterTask`: more activities wins; on a tie the higher completeness score wins; on equal
      scores the first task is kept. */
  function ChooseBetterTask(task1: TaskInfo, task2: TaskInfo): (r: TaskInfo)
    ensures r == task1 || r == task2
    ensures |r.activities| >= |task1.activities| && |r.activities| >= |task2.activities|
    ensures |task1.activities| == |task2.activities| ==>
              CompletenessScore(r) >= CompletenessScore(task1) && CompletenessScore(r) >= CompletenessScore(task2)
    ensures CompletenessScore(task1) == CompletenessScore(task2) && |task1.activities| == |task2.activities| ==> r == task1
  {
    if |task1.activities| != |task2.activities| then
      (if |task1.activities| > |task2.activities| then task1 else task2)
    else if CompletenessScore(task1) >= CompletenessScore(task2) then task1
    else task2
  }

  /** The insertion-ordered map of `deduplicateTasks`: the keys in first-seen order and the
      record kept for each. */
  datatype TaskTable = TaskTable(keys: seq<string>, byKey: map<string, TaskInfo>)

  predicate TableValid(tb: TaskTable)
  {
    && (forall i, j :: 0 <= i < j < |tb.keys| ==> tb.keys[i] != tb.keys[j])
    && (forall k :: k in tb.byKey ==> k in tb.keys)
    && (forall k :: k in tb.keys ==> k in tb.byKey)
    && (forall k :: k in tb.byKey ==> TaskKey(tb.byKey[k]) == k)
  }

  /** The table after merging `tasks` in order. */
  function MergeTasks(tasks: seq<TaskInfo>): (tb: TaskTable)
    decreases |tasks|
  {
    if |tasks| == 0 then TaskTable([], map[])
    else
      var tb := MergeTasks(tasks[..|tasks| - 1]);
      var task := tasks[|tasks| - 1];
      var key := TaskKey(task);
      if key in tb.byKey then tb.(byKey := tb.byKey[key := ChooseBetterTask(tb.byKey[key], task)])
      else TaskTable(tb.keys + [key], tb.byKey[key := task])
  }

  /** The merge keeps the table well formed: distinct keys in first-seen order, one entry per key,
      each stored under its own key. */
  lemma {:induction false} MergeTasksValid(tasks: seq<TaskInfo>)
    ensures TableValid(MergeTasks(tasks))
    decreases |tasks|
  {
    if |tasks| > 0 {
      var init := tasks[..|tasks| - 1];
      var task := tasks[|tasks| - 1];
      MergeTasksValid(init);
      var tb := MergeTasks(init);
      var key := TaskKey(task);
      if key !in tb.byKey {
        assert key !in tb.keys;
      }
    }
  }

  /** Every key of the input has an entry, with at least as many activities as any input task with
      its key. */
  lemma {:induction false} MergeTasksCovers(tasks: seq<TaskInfo>)
    ensures var tb := MergeTasks(tasks);
            forall t :: t in tasks ==> TaskKey(t) in tb.byKey && |tb.byKey[TaskKey(t)].activities| >= |t.activities|
    decreases |tasks|
  {
    if |tasks| > 0 {
      var init := tasks[..|tasks| - 1];
      var task := tasks[|tasks| - 1];
      MergeTasksCovers(init);
      var tb := MergeTasks(init);
      var tb' := MergeTasks(tasks);
      var key := TaskKey(task);
      assert tasks == init + [task];
      forall t | t in tasks
        ensures TaskKey(t) in tb'.byKey && |tb'.byKey[TaskKey(t)].activities| >= |t.activities|
      {
        var k := TaskKey(t);
        if k == key {
          if key in tb.byKey {
            assert tb'.byKey[k] == ChooseBetterTask(tb.byKey[key], task);
          }
        } else {
          assert t in init;
          assert tb'.byKey[k] == tb.byKey[k];
        }
      }
    }
  }

  /** Merging the last task: each entry is that task or the entry the key had before. */
  lemma MergeLastEntries(tasks: seq<TaskInfo>)
    requires |tasks| > 0
    ensures var tb, tb' := MergeTasks(tasks[..|tasks| - 1]), MergeTasks(tasks);
            forall k :: k in tb'.byKey ==>
              tb'.byKey[k] == tasks[|tasks| - 1] || (k in tb.byKey && tb'.byKey[k] == tb.byKey[k])
  {
  }

  /** Each entry of the table is one of the input tasks. */
  lemma {:induction false} MergeTasksFromInput(tasks: seq<TaskInfo>)
    ensures var tb := MergeTasks(tasks);
            forall k :: k in tb.byKey ==> tb.byKey[k] in tasks
    decreases |tasks|
  {
    if |tasks| > 0 {
      var init := tasks[..|tasks| - 1];
      MergeTasksFromInput(init);
      MergeLastEntries(tasks);
      assert forall x :: x in init ==> x in tasks;
    }
  }

  /** `taskMap.values.toList()`: the kept tasks in first-seen key order. */
  function TableValues(tb: TaskTable): (r: seq<TaskInfo>)
    requires TableValid(tb)
    ensures |r| == |tb.keys| && forall i :: 0 <= i < |r| ==> r[i] == tb.byKey[tb.keys[i]]
  {
    seq(|tb.keys|, i requires 0 <= i < |tb.keys| => tb.byKey[tb.keys[i]])
  }

  /** The two-key order of the sort: higher priority first, then lower task number. */
  predicate Precedes(a: TaskInfo, b: TaskInfo)
  {
    Priority(a) > Priority(b) || (Priority(a) == Priority(b) && a.taskNumber <= b.taskNumber)
  }

  predicate SortedByPriority(ts: seq<TaskInfo>)
  {
    forall i, j :: 0 <= i < j < |ts| ==> Precedes(ts[i], ts[j])
  }

  /** Where `x` goes in a sorted list: before the first element it may precede. */
  function InsertPosition(x: TaskInfo, s: seq<TaskInfo>): (k: nat)
    ensures k <= |s|
    ensures forall i :: 0 <= i < k ==> !Precedes(x, s[i])
    ensures k < |s| ==> Precedes(x, s[k])
  {
    match FirstIndexFrom(s, 0, y => Precedes(x, y))
    case Some(k) => k
    case None => |s|
  }

  function Insert(x: TaskInfo, s: seq<TaskInfo>): seq<TaskInfo>
  {
    var k := InsertPosition(x, s);
    s[..k] + [x] + s[k..]
  }

  lemma InsertKeepsSorted(x: TaskInfo, s: seq<TaskInfo>)
    requires SortedByPriority(s)
    ensures SortedByPriority(Insert(x, s))
    ensures multiset(Insert(x, s)) == multiset(s) + multiset{x}
  {
    var k := InsertPosition(x, s);
    var r := Insert(x, s);
    assert s == s[..k] + s[k..];
    forall i, j | 0 <= i < j < |r|
      ensures Precedes(r[i], r[j])
    {
      if j < k || i > k {
      } else if i < k && j == k {
        assert r[i] == s[i] && r[j] == x;
      } else if i < k {
        assert r[i] == s[i] && r[j] == s[j - 1];
      } else {
        assert i == k && r[i] == x && r[j] == s[j - 1];
        assert Precedes(x, s[k]);
        if j - 1 > k {
          assert Precedes(s[k], s[j - 1]);
        }
      }
    }
  }

  /** Kotlin `sortedWith(compareByDescending { priority }.thenBy { taskNumber })`: a stable insertion
      sort; the result is ordered and holds exactly the same tasks. */
  function SortByPriority(ts: seq<TaskInfo>): (r: seq<TaskInfo>)
    ensures SortedByPriority(r)
    ensures multiset(r) == multiset(ts)
  {
    if |ts| == 0 then []
    else
      var rest := SortByPriority(ts[1..]);
      InsertKeepsSorted(ts[0], rest);
      assert ts == [ts[0]] + ts[1..];
      Insert(ts[0], rest)
  }

  /** The tasks whose priority is `pr` and whose task number is `tn`, in order. */
  function TasksRankedAs(ts: seq<TaskInfo>, pr: int, tn: int): seq<TaskInfo>
  {
    Filter(ts, (t: TaskInfo) => Priority(t) == pr && t.taskNumber == tn)
  }

  /** Inserting `x` puts it ahead of the tasks that tie with it on both sort keys. */
  lemma InsertTasksRanked(x: TaskInfo, s: seq<TaskInfo>, pr: int, tn: int)
    ensures TasksRankedAs(Insert(x, s), pr, tn) == TasksRankedAs([x], pr, tn) + TasksRankedAs(s, pr, tn)
  {
    var k := InsertPosition(x, s);
    FilterInsertAt(s, k, x, (t: TaskInfo) => Priority(t) == pr && t.taskNumber == tn);
  }

  /** The sort is stable: tasks that tie on priority and task number keep the order they came in. */
  lemma {:induction false} SortByPriorityStable(ts: seq<TaskInfo>, pr: int, tn: int)
    ensures TasksRankedAs(SortByPriority(ts), pr, tn) == TasksRankedAs(ts, pr, tn)
    decreases |ts|
  {
    if |ts| > 0 {
      SortByPriorityStable(ts[1..], pr, tn);
      InsertTasksRanked(ts[0], SortByPriority(ts[1..]), pr, tn);
      FilterHead(ts, (t: TaskInfo) => Priority(t) == pr && t.taskNumber == tn);
    }
  }

  /** Sorting keeps the keys of a list distinct. */
  lemma {:induction false} SortKeepsDistinct(ts: seq<TaskInfo>)
    requires DistinctKeys(ts)
    ensures DistinctKeys(SortByPriority(ts))
    decreases |ts|
  {
    if |ts| > 0 {
      var tail := ts[1..];
      assert DistinctKeys(tail) by {
        forall i, j | 0 <= i < j < |tail|
          ensures TaskKey(tail[i]) != TaskKey(tail[j])
        {
          assert tail[i] == ts[i + 1] && tail[j] == ts[j + 1];
        }
      }
      SortKeepsDistinct(tail);
      var rest := SortByPriority(tail);
      forall y | y in rest
        ensures TaskKey(y) != TaskKey(ts[0])
      {
        assert multiset(rest)[y] > 0;
        var i :| 0 <= i < |tail| && tail[i] == y;
        assert ts[i + 1] == y;
      }
      InsertKeepsDistinct(rest, InsertPosition(ts[0], rest), ts[0], TaskKey);
      assert SortByPriority(ts) == Insert(ts[0], rest);
    }
  }

  /** The tasks of one display after `deduplicateTasks`. */
  function Deduplicate(tasks: seq<TaskInfo>): seq<TaskInfo>
  {
    MergeTasksValid(tasks);
    SortByPriority(TableValues(MergeTasks(tasks)))
  }

  /** The values of a valid table have distinct keys, and they are exactly its entries. */
  lemma TableValuesEntries(tb: TaskTable)
    requires TableValid(tb)
    ensures DistinctKeys(TableValues(tb))
    ensures forall k :: k in tb.byKey ==> tb.byKey[k] in TableValues(tb)
    ensures forall u :: u in TableValues(tb) ==> TaskKey(u) in tb.byKey && tb.byKey[TaskKey(u)] == u
  {
    var vs := TableValues(tb);
    forall i, j | 0 <= i < j < |vs|
      ensures TaskKey(vs[i]) != TaskKey(vs[j])
    {
      assert TaskKey(vs[i]) == tb.keys[i] && TaskKey(vs[j]) == tb.keys[j];
    }
    forall k | k in tb.byKey
      ensures tb.byKey[k] in vs
    {
      var i :| 0 <= i < |tb.keys| && tb.keys[i] == k;
      assert vs[i] == tb.byKey[k];
    }
  }

  /** Sorting neither adds nor drops a task. */
  lemma SortSameElements(ts: seq<TaskInfo>)
    ensures forall u :: u in SortByPriority(ts) <==> u in ts
  {
    var r := SortByPriority(ts);
    assert forall u :: u in r <==> u in multiset(r);
    assert forall u :: u in ts <==> u in multiset(ts);
  }

  /** `deduplicateTasks` returns one task per key, sorted by descending priority then ascending task
      number. */
  lemma DeduplicateOrdered(tasks: seq<TaskInfo>)
    ensures DistinctKeys(Deduplicate(tasks))
    ensures SortedByPriority(Deduplicate(tasks))
  {
    MergeTasksValid(tasks);
    var vs := TableValues(MergeTasks(tasks));
    TableValuesEntries(MergeTasks(tasks));
    SortKeepsDistinct(vs);
  }

  /** Every task `deduplicateTasks` returns is one of its inputs, every key of the input is
      represented, and by a task with the most activities among those with its key. */
  lemma DeduplicateKeeps(tasks: seq<TaskInfo>)
    ensures forall u :: u in Deduplicate(tasks) ==> u in tasks
    ensures forall t :: t in tasks ==> exists u :: u in Deduplicate(tasks) && TaskKey(u) == TaskKey(t)
    ensures forall t, u :: t in tasks && u in Deduplicate(tasks) && TaskKey(u) == TaskKey(t) ==>
              |u.activities| >= |t.activities|
  {
    var tb := MergeTasks(tasks);
    MergeTasksValid(tasks);
    MergeTasksCovers(tasks);
    MergeTasksFromInput(tasks);
    var vs := TableValues(tb);
    TableValuesEntries(tb);
    SortSameElements(vs);
    var r := Deduplicate(tasks);
    assert r == SortByPriority(vs);
    forall t | t in tasks
      ensures exists u :: u in r && TaskKey(u) == TaskKey(t)
    {
      var u := tb.byKey[TaskKey(t)];
      assert u in vs;
    }
  }

  /** Appending a task with a new key adds its key at the end of the table. */
  lemma MergeNewKey(tasks: seq<TaskInfo>)
    requires |tasks| > 0
    requires TaskKey(tasks[|tasks| - 1]) !in MergeTasks(tasks[..|tasks| - 1]).byKey
    ensures var tb := MergeTasks(tasks[..|tasks| - 1]);
            var t := tasks[|tasks| - 1];
            MergeTasks(tasks) == TaskTable(tb.keys + [TaskKey(t)], tb.byKey[TaskKey(t) := t])
  {
  }

  /** Dropping the last task keeps the keys distinct, and no task before the last has its key. */
  lemma DistinctKeysInit(tasks: seq<TaskInfo>)
    requires |tasks| > 0 && DistinctKeys(tasks)
    ensures DistinctKeys(tasks[..|tasks| - 1])
    ensures forall u :: u in tasks[..|tasks| - 1] ==> TaskKey(u) != TaskKey(tasks[|tasks| - 1])
  {
    var init := tasks[..|tasks| - 1];
    forall i, j | 0 <= i < j < |init|
      ensures TaskKey(init[i]) != TaskKey(init[j])
    {
      assert init[i] == tasks[i] && init[j] == tasks[j];
    }
    forall u | u in init
      ensures TaskKey(u) != TaskKey(tasks[|tasks| - 1])
    {
      var i :| 0 <= i < |init| && init[i] == u;
      assert tasks[i] == u;
    }
  }

  /** Tasks that already have distinct keys go through the merge unchanged. */
  lemma {:induction false} MergeDistinctIsIdentity(tasks: seq<TaskInfo>)
    requires DistinctKeys(tasks)
    ensures TableValid(MergeTasks(tasks)) && TableValues(MergeTasks(tasks)) == tasks
    decreases |tasks|
  {
    if |tasks| > 0 {
      var init := tasks[..|tasks| - 1];
      var task := tasks[|tasks| - 1];
      assert tasks == init + [task];
      DistinctKeysInit(tasks);
      MergeDistinctIsIdentity(init);
      MergeTasksFromInput(init);
      MergeTasksValid(init);
      var tb := MergeTasks(init);
      assert TaskKey(task) !in tb.byKey;
      MergeNewKey(tasks);
      TableValuesAppend(tb, task);
    }
  }

  /** Adding an entry under a new key adds its task at the end of the values. */
  lemma TableValuesAppend(tb: TaskTable, t: TaskInfo)
    requires TableValid(tb) && TaskKey(t) !in tb.byKey
    ensures var tb' := TaskTable(tb.keys + [TaskKey(t)], tb.byKey[TaskKey(t) := t]);
            TableValid(tb') && TableValues(tb') == TableValues(tb) + [t]
  {
    var key := TaskKey(t);
    var tb' := TaskTable(tb.keys + [key], tb.byKey[key := t]);
    assert key !in tb.keys;
    assert TableValid(tb');
    var vs := TableValues(tb');
    forall i | 0 <= i < |tb.keys|
      ensures vs[i] == TableValues(tb)[i]
    {
      assert tb'.keys[i] == tb.keys[i] != key;
    }
  }

  /** `deduplicateTasks`: merge by key into an insertion-ordered map, then sort. */
  method DeduplicateTasks(tasks: seq<TaskInfo>) returns (r: seq<TaskInfo>)
    ensures r == Deduplicate(tasks)
  {
    var keys: seq<string> := [];
    var taskMap: map<string, TaskInfo> := map[];
    for n := 0 to |tasks|
      invariant TaskTable(keys, taskMap) == MergeTasks(tasks[..n])
      invariant TableValid(TaskTable(keys, taskMap))
    {
      var task := tasks[n];
      var uniqueKey := task.taskId + "_" + IntToString(task.taskNumber);
      assert tasks[..n + 1][..n] == tasks[..n];
      if uniqueKey !in taskMap {
        keys := keys + [uniqueKey];
        taskMap := taskMap[uniqueKey := task];
      } else {
        var betterTask := ChooseBetterTask(taskMap[uniqueKey], task);
        taskMap := taskMap[uniqueKey := betterTask];
      }
      MergeTasksValid(tasks[..n + 1]);
    }
    assert tasks[..|tasks|] == tasks;
    r := SortByPriority(TableValues(TaskTable(keys, taskMap)));
  }

  // ----- The outer scan -----

  /** The variables of `parseActivityDump`'s loop. */
  datatype ScanState = ScanState(displays: seq<DisplayInfo>, resumed: seq<string>, displayId: int,
                                 tasks: seq<TaskInfo>, seen: set<string>)

  const Initial: ScanState := ScanState([], [], -1, [], {})

  /** The displays once the current one is closed: it is added, de-duplicated, only when its id is
      not -1. */
  function Closed(st: ScanState): seq<DisplayInfo>
  {
    if st.displayId != -1 then st.displays + [DisplayInfo(st.displayId, Deduplicate(st.tasks))]
    else st.displays
  }

  /** Where the scan goes on, and with which variables. */
  datatype Cursor = Cursor(next: nat, st: ScanState)

  /** One turn of the loop at line `i`. A display header closes the current display and opens a new
      one; a task header adds that task unless its key was seen in this display, and moves to the
      next boundary; a resumed-activities header reads the section and moves past its last line. */
  function Step(lines: seq<string>, i: nat, st: ScanState): (c: Cursor)
    requires i < |lines|
    ensures i < c.next
  {
    var line := Trim(lines[i]);
    if StartsWith(line, DisplayMarker) then
      Cursor(i + 1, ScanState(Closed(st), st.resumed, ParseDisplayId(line), [], {}))
    else if StartsWith(line, TaskMarker) then
      var t := TaskAt(line, lines, i);
      var key := TaskKey(t);
      Cursor(NextBoundary(lines, i + 1),
             if key in st.seen then st else st.(tasks := st.tasks + [t], seen := st.seen + {key}))
    else if StartsWith(line, ResumedSectionMarker) then
      var j := ResumedEnd(lines, i);
      Cursor(j + 1, st.(resumed := st.resumed + ResumedIn(lines, i + 1, j)))
    else Cursor(i + 1, st)
  }

  function ScanFrom(lines: seq<string>, i: nat, st: ScanState): ActivityDumpData
    decreases |lines| - i
  {
    if i >= |lines| then ActivityDumpData(Closed(st), st.resumed)
    else
      var c := Step(lines, i, st);
      ScanFrom(lines, c.next, c.st)
  }

  /** The result of `parseActivityDump` on `content`. */
  function ActivityDumpOf(content: string): ActivityDumpData
  {
    ScanFrom(Split(content, "\n"), 0, Initial)
  }

  /** `parseActivityDump`. */
  method ParseActivityDump(content: string) returns (data: ActivityDumpData)
    ensures data == ActivityDumpOf(content)
  {
    var lines := Split(content, "\n");
    var displays: seq<DisplayInfo> := [];
    var resumedActivities: seq<string> := [];
    var currentDisplayId := -1;
    var currentTasks: seq<TaskInfo> := [];
    var seenTaskIds: set<string> := {};
    var i: nat := 0;
    while i < |lines|
      invariant ScanFrom(lines, i, ScanState(displays, resumedActivities, currentDisplayId, currentTasks, seenTaskIds))
                == ActivityDumpOf(content)
      decreases |lines| - i
    {
      var line := Trim(lines[i]);
      ghost var st := ScanState(displays, resumedActivities, currentDisplayId, currentTasks, seenTaskIds);
      ghost var c := Step(lines, i, st);
      if StartsWith(line, DisplayMarker) {
        if currentDisplayId != -1 {
          var deduplicatedTasks := DeduplicateTasks(currentTasks);
          displays := displays + [DisplayInfo(currentDisplayId, deduplicatedTasks)];
        }
        currentDisplayId := ParseDisplayId(line);
        currentTasks := [];
        seenTaskIds := {};
      } else if StartsWith(line, TaskMarker) {
        var taskInfo := ParseTask(line, lines, i);
        var uniqueKey := taskInfo.taskId + "_" + IntToString(taskInfo.taskNumber);
        if uniqueKey !in seenTaskIds {
          seenTaskIds := seenTaskIds + {uniqueKey};
          currentTasks := currentTasks + [taskInfo];
        }
        var next := SkipToNextTask(lines, i);
        i := next - 1;
      } else if StartsWith(line, ResumedSectionMarker) {
        i, resumedActivities := ParseResumedActivities(lines, i, resumedActivities);
      }
      i := i + 1;
      assert i == c.next;
      assert ScanState(displays, resumedActivities, currentDisplayId, currentTasks, seenTaskIds) == c.st;
    }
    if currentDisplayId != -1 {
      var deduplicatedTasks := DeduplicateTasks(currentTasks);
      displays := displays + [DisplayInfo(currentDisplayId, deduplicatedTasks)];
    }
    data := ActivityDumpData(displays, resumedActivities);
  }

  // ----- Properties of the scan -----

  /** Only displays whose id is not -1 are ever emitted. */
  lemma {:induction false} EmittedDisplaysHaveIds(lines: seq<string>, i: nat, st: ScanState)
    requires forall d :: d in st.displays ==> d.displayId != -1
    ensures forall d :: d in ScanFrom(lines, i, st).displays ==> d.displayId != -1
    decreases |lines| - i
  {
    if i < |lines| {
      var c := Step(lines, i, st);
      EmittedDisplaysHaveIds(lines, c.next, c.st);
    }
  }

  /** A display whose tasks have distinct keys and are in priority order. */
  predicate Deduplicated(d: DisplayInfo)
  {
    DistinctKeys(d.tasks) && SortedByPriority(d.tasks)
  }

  /** A step either keeps the displays or closes the current one. */
  lemma StepDisplays(lines: seq<string>, i: nat, st: ScanState)
    requires i < |lines|
    ensures var d := Step(lines, i, st).st.displays; d == st.displays || d == Closed(st)
  {
  }

  /** Closing a display adds a de-duplicated one. */
  lemma ClosedDeduplicated(st: ScanState)
    requires forall d :: d in st.displays ==> Deduplicated(d)
    ensures forall d :: d in Closed(st) ==> Deduplicated(d)
  {
    DeduplicateOrdered(st.tasks);
  }

  /** Every display emitted holds tasks with distinct keys, in priority order. */
  lemma {:induction false} EmittedDisplaysDeduplicated(lines: seq<string>, i: nat, st: ScanState)
    requires forall d :: d in st.displays ==> Deduplicated(d)
    ensures forall d :: d in ScanFrom(lines, i, st).displays ==> Deduplicated(d)
    decreases |lines| - i
  {
    ClosedDeduplicated(st);
    if i < |lines| {
      var c := Step(lines, i, st);
      StepDisplays(lines, i, st);
      EmittedDisplaysDeduplicated(lines, c.next, c.st);
    }
  }

  /** While no display with a valid id is open, the tasks collected make no difference to the
      result: tasks before the first `Display #` line, or under a display whose id reads as -1, are
      never emitted. */
  lemma {:induction false} TasksOutsideDisplayDropped(lines: seq<string>, i: nat, st: ScanState)
    requires st.displayId == -1
    ensures ScanFrom(lines, i, st) == ScanFrom(lines, i, st.(tasks := [], seen := {}))
    decreases |lines| - i
  {
    if i < |lines| {
      var st0 := st.(tasks := [], seen := {});
      var c := Step(lines, i, st);
      var c0 := Step(lines, i, st0);
      var line := Trim(lines[i]);
      if StartsWith(line, DisplayMarker) {
        assert c == c0;
      } else {
        assert c.next == c0.next && c.st.displayId == -1;
        assert c0.st == c.st.(tasks := c0.st.tasks, seen := c0.st.seen);
        TasksOutsideDisplayDropped(lines, c.next, c.st);
        TasksOutsideDisplayDropped(lines, c.next, c0.st);
      }
    }
  }

  /** The scan's per-display bookkeeping: `seen` holds exactly the keys of the collected tasks, and
      those keys are distinct. */
  predicate Collected(st: ScanState)
  {
    && st.seen == (set t | t in st.tasks :: TaskKey(t))
    && DistinctKeys(st.tasks)
  }

  /** Each step keeps the bookkeeping. At a task header that task is appended exactly when no task
      collected in the current display has its key, so the first occurrence of a key is the one
      kept; a display header resets the collection. */
  lemma StepKeepsCollected(lines: seq<string>, i: nat, st: ScanState)
    requires i < |lines| && Collected(st)
    ensures Collected(Step(lines, i, st).st)
    ensures var line := Trim(lines[i]);
            StartsWith(line, TaskMarker) && !StartsWith(line, DisplayMarker) ==>
              var t := TaskAt(line, lines, i);
              Step(lines, i, st).st.tasks
              == if exists u :: u in st.tasks && TaskKey(u) == TaskKey(t) then st.tasks else st.tasks + [t]
  {
    var line := Trim(lines[i]);
    if StartsWith(line, TaskMarker) && !StartsWith(line, DisplayMarker) {
      var t := TaskAt(line, lines, i);
      var ts := st.tasks + [t];
      if TaskKey(t) !in st.seen {
        assert (set u | u in ts :: TaskKey(u)) == st.seen + {TaskKey(t)};
        forall a, b | 0 <= a < b < |ts|
          ensures TaskKey(ts[a]) != TaskKey(ts[b])
        {
          if b == |ts| - 1 {
            assert ts[a] in st.tasks;
          }
        }
      }
    }
  }

  /** Because the scan keeps only the first task per key, the merge in `deduplicateTasks` never has
      two tasks to choose between: a display's tasks are its first occurrences, sorted. */
  lemma CollectedNeedsNoMerge(st: ScanState)
    requires Collected(st)
    ensures Deduplicate(st.tasks) == SortByPriority(st.tasks)
  {
    MergeDistinctIsIdentity(st.tasks);
  }
}
