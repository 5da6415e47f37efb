# ADB dump parsers, modelled in Dafny

ADB Dump Network Analyzer is a desktop tool. It reads the text that `adb shell dumpsys …`,
`ip rule show`, `ip route show table <n>` and `adb bugreport` print for an Android device, and turns
that text into records. This project models the parsing layer of the tool: the `*Parser` services
and the little logic the model classes carry. Every parser here is a total function from the dump
text, split into lines, to immutable records. Missing data becomes the field's default.

The model covers:

- **Activity dumps** (`dumpsys activity activities`):
  - the display → task → activity hierarchy, with the cursor skipping over each task body;
  - the first-occurrence-per-key filter of tasks within a display;
  - the look-ahead of at most four detail lines per activity;
  - `deduplicateTasks` with its two-key sort;
  - `chooseBetterTask` and the completeness score;
  - a task's priority score. Its tiebreaker `taskNumber / 1000` uses truncating `Int` division.
- **Window dumps** (`dumpsys window windows`):
  - the header pattern and the per-window body loop;
  - the multi-line `mAttrs` block and the regexes read from it;
  - the outer scan that jumps from header to header;
  - the focus lines;
  - the final `sortedBy` on window number;
  - the focus package and activity extraction.
- **Connectivity, Wi-Fi, netstats and network stack dumps**: every line classifier, section scanner and field extractor, with each field's default.
- **Routes**:
  - the `ip rule` and `ip route` line readers and their type, name and description tables;
  - the table list of `parseRouteData`, with the outputs of the commands as parameters.
- **Bug reports**:
  - `extractSection`;
  - the integer parts of the processor and memory summaries, with 64-bit `Long` wrap-around;
  - the `top` listing;
  - the memory status rule;
  - the hand-off of each service section to its parser.

The modules follow the source files:

- `activity_dump_model`, `window_dump_model`, `connectivity_model`, `dump_data_model`, `route_dump_model` and `bugreport_model` hold the records.
- Each `*_parser` file holds the parser of the same name.
- `sections` holds the section loop shape shared by the Wi-Fi and netstats parsers.
- `text` holds the Kotlin string functions the parsers call, as the JVM defines them. Examples are `trim`, `split`, `lines`, `substringAfter`, `toIntOrNull` and `Int`/`Long` wrap-around.
- `patterns` is a backtracking matcher for the Java regular expressions the parsers use, written as lists of items. Greedy and lazy quantifiers, groups, alternatives and `find`/`findAll` follow Java's semantics. For the regexes of the form `key(k+)` (`KeyedRun`), `key(a|b)` (`KeyedChoice`), the `kB` figure, and the route priority, `from`, `fwmark` and Wi-Fi time-stamp patterns, a lemma proves that the match equals a direct reading ("the run of digits after the first `key=`"). The other regexes (task and window headers, SSID, RSSI, handle, score, link address, DNS, event record, position, soft input, activity component) are modelled by the matcher alone. Lemmas about them, where there are any, state what a match implies, such as the key being present, and not the captured text.

Loops in the source are `method`s with loop invariants. Each is proved equal to a function that
states the result, and lemmas about that function state what the source promises.

Where the code and its documentation differ, the model follows the code:

- `extractSection` skips every further line that contains the start marker. Such lines neither end the section nor are added to it.
- `parseActivityDump` keeps the first task per key within a display before `deduplicateTasks` runs. So the "more complete task wins" merge never sees two tasks with one key from this path. `ActivityDumpParser.ChooseBetterTask` models that merge on its own.
- In the connectivity parser, the connection state is checked by substring. So a `DISCONNECTED` record reads as connected, which `ConnectivityParser.DisconnectedReadsAsConnected` states.

## Model

| member | source | states |
|---|---|---|
| ActivityDumpModel.NewActivityRecord | src/main/kotlin/model/ActivityDumpData.kt:97-116 | a record built from the parsed fields keeps them and takes the declared defaults for the rest: uid -1, empty state, every flag false |
| ActivityDumpModel.TruncDiv | src/main/kotlin/model/ActivityDumpData.kt:77 | Kotlin's `Int` division rounds toward zero: Euclidean quotient for a non-negative dividend, the negated quotient of the magnitude otherwise |
| ActivityDumpModel.TruncDivOfMinusOne | src/main/kotlin/model/ActivityDumpData.kt:77 | for the default task number -1 the tiebreaker `-1 / 1000` is 0 in Kotlin, where Euclidean division would give -1 |
| ActivityDumpModel.TruncDivOdd | src/main/kotlin/model/ActivityDumpData.kt:77 | the tiebreaker division is symmetric around zero |
| ActivityDumpModel.CountResumed | src/main/kotlin/model/ActivityDumpData.kt:63 | the number of resumed activities is at most the number of activities, and 0 exactly when none is resumed |
| ActivityDumpModel.CalculatePriority | src/main/kotlin/model/ActivityDumpData.kt:41-80 | the priority accumulated step by step equals the sum of the placement, content, resumed, home, opacity and task-number terms |
| ActivityDumpModel.PlacementCases | src/main/kotlin/model/ActivityDumpData.kt:44-55 | the placement term is 1000, 800, 600 or 0, each exactly in its one situation (visible with a resumed activity, visible, visibility requested, none) |
| ActivityDumpModel.PriorityTerms | src/main/kotlin/model/ActivityDumpData.kt:57-77 | with the placement term taken away and the tiebreaker added back, the priority is 400 for an awake task with activities, 100 per resumed activity, 50 for a home task and 10 for an opaque one |
| ActivityDumpModel.PlacementOrdersPriority | src/main/kotlin/model/ActivityDumpData.kt:32-55 | all else equal, a visible task with a resumed activity ranks above a merely visible one, which ranks above one only requested visible |
| ActivityDumpModel.ForegroundAndBackground | src/main/kotlin/model/ActivityDumpData.kt:82-94 | a task is foreground exactly when it gets the 1000 placement term; no task is both foreground and background-active; a background-active task gets at most 600 |
| ActivityDumpParser.NextBoundary | src/main/kotlin/service/ActivityDumpParser.kt:217-229 | the first line at or after the start that opens a task, a display or a resumed-activity block, or the end of input; no line before it does |
| ActivityDumpParser.SkipToNextTask | src/main/kotlin/service/ActivityDumpParser.kt:217-229 | the index returned is past its task header, is a boundary line or the end of input, and no line in between is a boundary |
| ActivityDumpParser.ParseDisplayId | src/main/kotlin/service/ActivityDumpParser.kt:66-69 | -1 when no `Display #` is followed by a digit; otherwise the digits after the first `Display #` that has them, read as an `Int`, and -1 exactly when they do not fit in 32 bits |
| ActivityDumpParser.TaskFromHeader | src/main/kotlin/service/ActivityDumpParser.kt:74-86 | without a header match every header field keeps its default (empty texts, number -1, user 0, root task -1, flags false, size 0); the body fields start empty |
| ActivityDumpParser.HeaderWithoutTask | src/main/kotlin/service/ActivityDumpParser.kt:74-86 | a line without `Task{` yields the same header fields as an empty line |
| ActivityDumpParser.ComponentPackage | src/main/kotlin/service/ActivityDumpParser.kt:164-165 | the package is the component up to its first `/` |
| ActivityDumpParser.ComponentActivity | src/main/kotlin/service/ActivityDumpParser.kt:164-166 | the activity is empty without a `/`, and otherwise the piece between the first and the second `/` |
| ActivityDumpParser.ComponentRoundTrip | src/main/kotlin/service/ActivityDumpParser.kt:161-166 | a component with exactly one `/` is its package, the `/` and its activity |
| ActivityDumpParser.DetailEnd | src/main/kotlin/service/ActivityDumpParser.kt:174-182 | the detail look-ahead covers at most four lines after the record and stops at the first line naming a history entry, a task or the top resumed activity |
| ActivityDumpParser.ScanDetailsNext | src/main/kotlin/service/ActivityDumpParser.kt:184-197 | each look-ahead line updates the intent, process record, process name and pid as one step |
| ActivityDumpParser.ReadDetailLine | src/main/kotlin/service/ActivityDumpParser.kt:184-196 | one pass of the look-ahead loop is the detail step on that line |
| ActivityDumpParser.ActivityAt | src/main/kotlin/service/ActivityDumpParser.kt:152-215 | a record exists exactly when the history pattern matches; a parsed record is never marked resumed and has uid -1 |
| ActivityDumpParser.ParseActivityRecord | src/main/kotlin/service/ActivityDumpParser.kt:152-215 | the method returns the record the history line and its look-ahead define |
| ActivityDumpParser.BodyLineStep | src/main/kotlin/service/ActivityDumpParser.kt:106-125 | a body line either leaves the activity list as it is or appends the one record parsed from it |
| ActivityDumpParser.ScanTaskBodyNext | src/main/kotlin/service/ActivityDumpParser.kt:96-127 | each body line is one step of a task's body scan |
| ActivityDumpParser.ScanTaskBodyNoResumed | src/main/kotlin/service/ActivityDumpParser.kt:119-124 | no activity a task body collects is marked resumed |
| ActivityDumpParser.AppendKeepsNoResumed | src/main/kotlin/service/ActivityDumpParser.kt:119-124 | appending a parsed record keeps every collected activity unresumed |
| ActivityDumpParser.TaskEnd | src/main/kotlin/service/ActivityDumpParser.kt:95-104 | a task's body ends after the header, at the next boundary line or the end of input |
| ActivityDumpParser.ReadBodyLine | src/main/kotlin/service/ActivityDumpParser.kt:106-125 | one pass of the body loop is the body step on that line |
| ActivityDumpParser.ReadTaskBody | src/main/kotlin/service/ActivityDumpParser.kt:95-127 | the body loop reads exactly the lines between the header and the next boundary |
| ActivityDumpParser.ParseTask | src/main/kotlin/service/ActivityDumpParser.kt:71-150 | a task is its header fields with the body read from the following lines |
| ActivityDumpParser.ParsedTaskHasNoResumed | src/main/kotlin/service/ActivityDumpParser.kt:119-124 | a parsed task never counts a resumed activity, so its priority gets no resumed term, only the 400 for an awake task with activities |
| ActivityDumpParser.TaskIsLocal | src/main/kotlin/service/ActivityDumpParser.kt:95-127 | a task reads nothing at or after the line that ends its body |
| ActivityDumpParser.ResumedEnd | src/main/kotlin/service/ActivityDumpParser.kt:231-238 | the resumed-activities block ends at the first empty or `ResumedActivity:` line after its header, or at the end of input |
| ActivityDumpParser.ResumedEntries | src/main/kotlin/service/ActivityDumpParser.kt:240-243 | every entry collected comes from a `Resumed:` line as the text after `Resumed: `, and every `Resumed: ` line in the block contributes its entry |
| ActivityDumpParser.ParseResumedActivities | src/main/kotlin/service/ActivityDumpParser.kt:231-248 | the returned index is the block's end and the list grows by exactly the block's entries, in order |
| ActivityDumpParser.CompletenessScore | src/main/kotlin/service/ActivityDumpParser.kt:298-309 | two points per activity plus at most six for the non-empty descriptive fields |
| ActivityDumpParser.CalculateTaskCompletenessScore | src/main/kotlin/service/ActivityDumpParser.kt:298-309 | the score counted step by step equals the completeness score |
| ActivityDumpParser.ChooseBetterTask | src/main/kotlin/service/ActivityDumpParser.kt:282-293 | the choice is one of the two tasks, has the most activities, and on equal activity counts has the higher completeness score; a full tie keeps the first |
| ActivityDumpParser.MergeTasksValid | src/main/kotlin/service/ActivityDumpParser.kt:256-270 | the merged map keeps one entry per key, keys listed once each in insertion order |
| ActivityDumpParser.MergeTasksCovers | src/main/kotlin/service/ActivityDumpParser.kt:258-270 | every input task's key is in the map, with a task holding at least as many activities |
| ActivityDumpParser.MergeTasksFromInput | src/main/kotlin/service/ActivityDumpParser.kt:258-270 | every kept task is one of the input tasks |
| ActivityDumpParser.TableValues | src/main/kotlin/service/ActivityDumpParser.kt:273 | the values of the map in first-seen key order |
| ActivityDumpParser.InsertPosition | src/main/kotlin/service/ActivityDumpParser.kt:273-276 | the insertion point is after every task the new one does not precede, and before one it does |
| ActivityDumpParser.InsertKeepsSorted | src/main/kotlin/service/ActivityDumpParser.kt:273-276 | inserting into a list sorted by descending priority then ascending task number keeps it sorted, and adds exactly that task |
| ActivityDumpParser.SortByPriority | src/main/kotlin/service/ActivityDumpParser.kt:273-276 | the sort returns a permutation of its input in descending priority, ties by ascending task number |
| ActivityDumpParser.SortByPriorityStable | src/main/kotlin/service/ActivityDumpParser.kt:273-276 | `sortedWith` is stable: tasks that tie on priority and task number keep their input order |
| ActivityDumpParser.InsertTasksRanked | src/main/kotlin/service/ActivityDumpParser.kt:273-276 | an inserted task goes ahead of every task that ties with it |
| ActivityDumpParser.SortKeepsDistinct | src/main/kotlin/service/ActivityDumpParser.kt:273-276 | sorting keeps the keys distinct |
| ActivityDumpParser.TableValuesEntries | src/main/kotlin/service/ActivityDumpParser.kt:273 | the map's values have distinct keys and are exactly its entries |
| ActivityDumpParser.SortSameElements | src/main/kotlin/service/ActivityDumpParser.kt:273-276 | sorting neither adds nor drops a task |
| ActivityDumpParser.DeduplicateOrdered | src/main/kotlin/service/ActivityDumpParser.kt:250-277 | the result of `deduplicateTasks` has distinct keys and is in priority order |
| ActivityDumpParser.DeduplicateKeeps | src/main/kotlin/service/ActivityDumpParser.kt:250-277 | every result task is an input task, every input key survives, and the survivor has at least as many activities as any input task with its key |
| ActivityDumpParser.MergeNewKey | src/main/kotlin/service/ActivityDumpParser.kt:262-264 | a task with a new key is added at the end of the map |
| ActivityDumpParser.MergeDistinctIsIdentity | src/main/kotlin/service/ActivityDumpParser.kt:255-270 | tasks that already have distinct keys go through the merge unchanged and in order |
| ActivityDumpParser.TableValuesAppend | src/main/kotlin/service/ActivityDumpParser.kt:264 | adding a new key appends its task to the values |
| ActivityDumpParser.DeduplicateTasks | src/main/kotlin/service/ActivityDumpParser.kt:255-277 | the merge loop and the sort yield the de-duplicated, ordered list |
| ActivityDumpParser.Step | src/main/kotlin/service/ActivityDumpParser.kt:20-54 | each turn of the outer loop moves the cursor forward |
| ActivityDumpParser.ParseActivityDump | src/main/kotlin/service/ActivityDumpParser.kt:10-64 | the method returns the displays and resumed activities the line-by-line scan defines |
| ActivityDumpParser.EmittedDisplaysHaveIds | src/main/kotlin/service/ActivityDumpParser.kt:26-29 | only displays with an id other than -1 are emitted |
| ActivityDumpParser.StepDisplays | src/main/kotlin/service/ActivityDumpParser.kt:24-35 | a turn either keeps the display list or closes the current display |
| ActivityDumpParser.ClosedDeduplicated | src/main/kotlin/service/ActivityDumpParser.kt:26-29 | closing a display adds one with distinct task keys in priority order |
| ActivityDumpParser.EmittedDisplaysDeduplicated | src/main/kotlin/service/ActivityDumpParser.kt:26-29 | every emitted display holds tasks with distinct keys, in priority order |
| ActivityDumpParser.TasksOutsideDisplayDropped | src/main/kotlin/service/ActivityDumpParser.kt:15-61 | tasks met before any display header are never emitted |
| ActivityDumpParser.StepKeepsCollected | src/main/kotlin/service/ActivityDumpParser.kt:37-48 | the collected tasks keep distinct keys; a task whose key was already seen is dropped, a new one is appended |
| ActivityDumpParser.CollectedNeedsNoMerge | src/main/kotlin/service/ActivityDumpParser.kt:41-45 | since the loop already drops repeated keys, de-duplicating its tasks only sorts them |
| Sections.DoneStays | src/main/kotlin/service/WifiDumpParser.kt:261-263 | once a section loop has broken out, later lines change nothing |
| Sections.SectionEnd | src/main/kotlin/service/WifiDumpParser.kt:250-264 | the line that ends a section opened at a start line is the first later non-start line that ends it, or the end of input |
| Sections.SectionOfState | src/main/kotlin/service/WifiDumpParser.kt:246-267 | after any number of lines the loop's list and flag are described directly: nothing before the first start line, then the items of the lines read so far, then the section's items once it has ended |
| Sections.SectionSpec | src/main/kotlin/service/WifiDumpParser.kt:246-267 | the section loop collects exactly the items of the non-start lines from the first start line up to the line that ends it |
| Sections.ItemsComeFromLines | src/main/kotlin/service/WifiDumpParser.kt:256-259 | every collected item was emitted by a line of the input |
| Sections.EmitInFrom | src/main/kotlin/service/WifiDumpParser.kt:250-259 | every item of a stretch of lines comes from one of its lines that is not a start line |
| Sections.SectionStopsBefore | src/main/kotlin/service/NetStatsParser.kt:17-57 | for a loop that only breaks before reading a line: no start line means no items; otherwise the items are those of the lines strictly before the stop line, and that line is the first later non-start line that stops the loop |
| Sections.SectionItemsFrom | src/main/kotlin/service/NetStatsParser.kt:17-57 | every item comes from a non-start line strictly between the first start line and the section's end |
| WifiDumpParser.ReadFirst | src/main/kotlin/service/WifiDumpParser.kt:62-244 | `lines.find { … }?.let { … }`: none without a matching line, and a value only as read from the first matching line |
| WifiDumpParser.ReadFirstDecidedByOneLine | src/main/kotlin/service/WifiDumpParser.kt:62-244 | the first matching line alone decides the field, whatever follows it |
| WifiDumpParser.FirstIndexFromShift | src/main/kotlin/service/WifiDumpParser.kt:62-244 | searching past a non-matching first line is searching the rest, one position further on |
| WifiDumpParser.ExtractLogLevel | src/main/kotlin/service/WifiDumpParser.kt:62-65 | "Unknown" exactly when no line mentions verbose logging; otherwise "On" when the first such line contains `on` and "Off" when it does not |
| WifiDumpParser.ExtractAirplaneMode | src/main/kotlin/service/WifiDumpParser.kt:67-72 | "Unknown" exactly when no line mentions `AirplaneModeOn` |
| WifiDumpParser.AirplaneModeOffIff | src/main/kotlin/service/WifiDumpParser.kt:67-72 | airplane mode reads "Off" exactly when the first `AirplaneModeOn` line contains `false` |
| WifiDumpParser.ExtractWifiEnabled | src/main/kotlin/service/WifiDumpParser.kt:74-77 | "Enabled" exactly when some line says `Wi-Fi is enabled`, "Disabled" otherwise |
| WifiDumpParser.ExtractCurState | src/main/kotlin/service/WifiDumpParser.kt:79-98 | "Unknown" when no `curState=` line names the state |
| WifiDumpParser.CurStateIsRestOfLine | src/main/kotlin/service/WifiDumpParser.kt:79-98 | the state is the rest of the first matching `curState=` line after that prefix |
| WifiDumpParser.ExtractInterfaceName | src/main/kotlin/service/WifiDumpParser.kt:100-107 | the trimmed text after `mClientInterfaceName:` on the first line that has it; failing that, the word after `InterfaceName: ` on the first `InterfaceName:` line, "Unknown" when that line has none; "Unknown" when neither key occurs |
| WifiDumpParser.TrimmedAfterMarker | src/main/kotlin/service/WifiDumpParser.kt:84-88 | the trimmed text after the marker on the first line containing it, "Unknown" without one (also `mRole:`, lines 114-118) |
| WifiDumpParser.WifiInfoField | src/main/kotlin/service/WifiDumpParser.kt:120-206 | the default without an `mWifiInfo` line; otherwise the default or the group captured on an `mWifiInfo` line |
| WifiDumpParser.DigitFieldShape | src/main/kotlin/service/WifiDumpParser.kt:196-206 | a digits-only field (network id, score) is the default or a non-empty run of digits |
| WifiDumpParser.SecurityNamesDistinct | src/main/kotlin/service/WifiDumpParser.kt:138-151 | different security codes get different names, so the name tells the code |
| WifiDumpParser.WifiStandardNamesDistinct | src/main/kotlin/service/WifiDumpParser.kt:153-164 | each standard's name ends with its number and a parenthesis, and different numbers get different names |
| WifiDumpParser.ExtractSecurityType | src/main/kotlin/service/WifiDumpParser.kt:138-151 | "Unknown" without an `mWifiInfo` line or when the first one has no `Security type: <digits>`; otherwise the table name of those digits |
| WifiDumpParser.ExtractWifiStandard | src/main/kotlin/service/WifiDumpParser.kt:153-164 | "Unknown" without an `mWifiInfo` line or when the first one has no `Wi-Fi standard: <digits>`; otherwise the table name of those digits |
| WifiDumpParser.SecurityNameTable | src/main/kotlin/service/WifiDumpParser.kt:142-148 | codes 0 to 4 name Open, WEP, WPA/WPA2, EAP and WPA3-SAE; any other code gives `Unknown(<code>)` |
| WifiDumpParser.WifiStandardNameTable | src/main/kotlin/service/WifiDumpParser.kt:157-161 | standards 4, 5 and 6 name 802.11n, 802.11ac and 802.11ax; any other number gives plain 802.11; each is followed by `(WiFi <number>)` |
| WifiDumpParser.WifiInfoDigitsFound | src/main/kotlin/service/WifiDumpParser.kt:139-140 | the regex search on the first `mWifiInfo` line gives the digits after the first occurrence of the key that has them, none without such a line |
| WifiDumpParser.PreferFirst | src/main/kotlin/service/WifiDumpParser.kt:208-222 | the value read from the first `mLinkProperties` line wins; "Unknown" when neither kind of line occurs (IP address and gateway) |
| WifiDumpParser.DnsServersOfLine | src/main/kotlin/service/WifiDumpParser.kt:226 | no addresses on a line without a `/` |
| WifiDumpParser.ExtractDnsServers | src/main/kotlin/service/WifiDumpParser.kt:224-228 | the addresses of the first `DnsAddresses:` line, none without such a line |
| WifiDumpParser.LeaseDurationShape | src/main/kotlin/service/WifiDumpParser.kt:230-234 | the lease duration is "Unknown" or a run of digits followed by `s` |
| WifiDumpParser.ParseStateChangeRecord | src/main/kotlin/service/WifiDumpParser.kt:315-326 | no record exactly when the record pattern does not match; a record carries the context and the pattern's `org` and `dest` groups as its states |
| WifiDumpParser.RecordNeedsTime | src/main/kotlin/service/WifiDumpParser.kt:316-317 | a line without `time=` gives no record |
| WifiDumpParser.ParseStateHistory | src/main/kotlin/service/WifiDumpParser.kt:246-313 | the loop of each of the three history parsers computes the section fold for its marker and context |
| WifiDumpParser.CurStateIsNotRecord | src/main/kotlin/service/WifiDumpParser.kt:256-263 | a `curState=` line, which ends a history, is never itself read as a `rec[` line |
| WifiDumpParser.HistorySpec | src/main/kotlin/service/WifiDumpParser.kt:246-313 | no history without the marker line; otherwise the records of the lines from the marker up to the first `curState=` line |
| WifiDumpParser.HistoryContext | src/main/kotlin/service/WifiDumpParser.kt:257-258 | every record of a history carries the context it was read for |
| WifiDumpParser.ParseScoreReports | src/main/kotlin/service/WifiDumpParser.kt:328-363 | the loop computes the score section fold |
| WifiDumpParser.ScoreReportsSpec | src/main/kotlin/service/WifiDumpParser.kt:328-363 | the reports are the section's items, and each comes from a line of at least 21 comma-separated fields, with fields 0, 6 and 20 as its time stamp, frequency and score |
| WifiDumpParser.NoScoresWithoutHeader | src/main/kotlin/service/WifiDumpParser.kt:333-336 | no score report is read without the CSV header line |
| WifiDumpParser.ExtractTimestamp | src/main/kotlin/service/WifiDumpParser.kt:410-412 | "Unknown" when no time stamp occurs; otherwise the line starts a time stamp `dd-dd dd:dd:dd.d…` at the first position where one starts, and the result is that whole stamp with all of its trailing digits |
| WifiDumpParser.MatchTimestamp | src/main/kotlin/service/WifiDumpParser.kt:411 | the time stamp regex matches at a position exactly when a time stamp starts there, and captures the whole stamp |
| WifiDumpParser.FindStamp | src/main/kotlin/service/WifiDumpParser.kt:411 | `find` succeeds exactly when some position starts a time stamp, and captures the stamp at the first such position |
| WifiDumpParser.EventIf | src/main/kotlin/service/WifiDumpParser.kt:379-404 | one test adds at most one event, exactly when its type is present, with the line's time stamp, `screenOn=true` flag and text |
| WifiDumpParser.EventsStampedFields | src/main/kotlin/service/WifiDumpParser.kt:379-404 | every event of a line is of a known type, carries the line as details and the time stamp, and its screen flag says whether the line has `screenOn=true` |
| WifiDumpParser.HasEventOfTypeConcat | src/main/kotlin/service/WifiDumpParser.kt:379-404 | an event of a type is in the concatenation exactly when it is in one part |
| WifiDumpParser.EventIfHasType | src/main/kotlin/service/WifiDumpParser.kt:379-404 | one test adds an event of type t exactly when it tests t and t is present |
| WifiDumpParser.EventsStampedTypes | src/main/kotlin/service/WifiDumpParser.kt:379-404 | a line adds an event of each type exactly when it names that type between spaces |
| WifiDumpParser.EventsStampedOrder | src/main/kotlin/service/WifiDumpParser.kt:379-404 | the events of one line come in the order the parser tests their types |
| WifiDumpParser.EventsOfSpec | src/main/kotlin/service/WifiDumpParser.kt:379-404 | the events of a line carry the time stamp `extractTimestamp` reads from it |
| WifiDumpParser.ReadEventLine | src/main/kotlin/service/WifiDumpParser.kt:379-404 | the three tests on one line yield the events of that line |
| WifiDumpParser.ParseEventHistory | src/main/kotlin/service/WifiDumpParser.kt:365-408 | the loop computes the event section fold |
| WifiDumpParser.EventHistorySpec | src/main/kotlin/service/WifiDumpParser.kt:365-408 | the events are the section's items; each is of a known type and its details are a line of the input |
| WifiDumpParser.ParseWifiDump | src/main/kotlin/service/WifiDumpParser.kt:7-60 | the record holds every extracted field and history of the dump |
| NetStatsParser.InterfaceType | src/main/kotlin/service/NetStatsParser.kt:42-46 | "WIFI" exactly for code 1, "MOBILE" exactly for code 0, "UNKNOWN" for any other code or none |
| NetStatsParser.ParseActiveInterfaces | src/main/kotlin/service/NetStatsParser.kt:17-57 | the loop computes the active-interfaces section fold: from `Active interfaces:` up to the first blank line |
| NetStatsParser.NetworkIdDefault | src/main/kotlin/service/NetStatsParser.kt:34-47 | a line without `networkId="` gets the network id "Unknown" |
| NetStatsParser.InterfaceName | src/main/kotlin/service/NetStatsParser.kt:32-41 | an interface is read exactly when `iface=` is followed by a non-space, and its name is that whole run of non-spaces |
| NetStatsParser.InterfaceTypeAndId | src/main/kotlin/service/NetStatsParser.kt:33-47 | the interface type is WIFI, MOBILE or UNKNOWN exactly as the first `type=` digits are 1, 0 or anything else; no quoted network id means "Unknown" |
| NetStatsParser.InterfaceFlags | src/main/kotlin/service/NetStatsParser.kt:35-49 | metered and default-network are true exactly when the first `metered=` / `defaultNetwork=` choice reads `true` |
| NetStatsParser.InterfaceFlagsLiteral | src/main/kotlin/service/NetStatsParser.kt:35-48 | metered implies the line contains `metered=true`; a line with `metered=true` and no `metered=false` is metered |
| NetStatsParser.InterfaceEmitFrom | src/main/kotlin/service/NetStatsParser.kt:31-52 | an interface is emitted only by an `iface=` line, and is what that line parses to |
| NetStatsParser.ActiveInterfacesFrom | src/main/kotlin/service/NetStatsParser.kt:17-57 | each interface comes from an `iface=` line strictly inside the section |
| NetStatsParser.StatsLineOfFirst | src/main/kotlin/service/NetStatsParser.kt:78-79 | the stats line is taken two lines after the FIRST line equal to the current one (`indexOf`), and none past the end |
| NetStatsParser.CounterSpec | src/main/kotlin/service/NetStatsParser.kt:80-91 | a counter is 0 without a match, the `Long` value of the digits when they fit, 0 when they do not; always within 0 and `Long.MAX_VALUE` |
| NetStatsParser.ParseDevStats | src/main/kotlin/service/NetStatsParser.kt:59-99 | the loop computes the Dev section fold, from `Dev stats:` up to `Xt stats:` |
| NetStatsParser.ParseXtStats | src/main/kotlin/service/NetStatsParser.kt:101-137 | the loop computes the Xt section fold, from `Xt stats:` to the end |
| NetStatsParser.DevEmitFrom | src/main/kotlin/service/NetStatsParser.kt:73-94 | a Dev record comes from a `networkId=` line whose stats line has `rb=`, with that line's four counters; no quoted id means "Unknown" |
| NetStatsParser.XtEmitFrom | src/main/kotlin/service/NetStatsParser.kt:111-132 | the same for an Xt record |
| NetStatsParser.DevStatsFrom | src/main/kotlin/service/NetStatsParser.kt:59-99 | every Dev record's counters are read from a line strictly inside the Dev section |
| NetStatsParser.XtStatsToEnd | src/main/kotlin/service/NetStatsParser.kt:101-137 | the Xt section never stops early: its records are those of every line after the marker |
| NetStatsParser.XtStatsFrom | src/main/kotlin/service/NetStatsParser.kt:101-137 | every Xt record's counters are read from a line after the marker |
| NetStatsParser.ParseNetStatsDump | src/main/kotlin/service/NetStatsParser.kt:7-15 | the record holds the three sections of the split dump |
| NetworkStackParser.ExtractDnsServers | src/main/kotlin/service/NetworkStackParser.kt:142-149 | the loop over the matches collects the servers of the line, in order |
| NetworkStackParser.InterfaceField | src/main/kotlin/service/NetworkStackParser.kt:122-125 | the interface is the word after `IpClient.`, or "Unknown" |
| NetworkStackParser.IpAddressField | src/main/kotlin/service/NetworkStackParser.kt:127-130 | the address is the first run of digits and dots after `IPv4 address: `, "Unknown" exactly when there is none |
| NetworkStackParser.ServerField | src/main/kotlin/service/NetworkStackParser.kt:132-135 | the server is the first run of digits and dots after `DHCP server /`, "Unknown" exactly when there is none |
| NetworkStackParser.LeaseTimeSpec | src/main/kotlin/service/NetworkStackParser.kt:137-140 | "Unknown" exactly when `lease <digits> seconds` does not occur, otherwise the digits followed by `s` |
| NetworkStackParser.DnsServersSpec | src/main/kotlin/service/NetworkStackParser.kt:142-149 | every DNS server is a run of digits and dots; a line without `/` has none |
| NetworkStackParser.KeepsAllButLastTransitive | src/main/kotlin/service/NetworkStackParser.kt:46-59 | keeping every record but the last is transitive across steps |
| NetworkStackParser.ParseDhcpRecords | src/main/kotlin/service/NetworkStackParser.kt:18-65 | the loop computes the DHCP fold over all lines |
| NetworkStackParser.ReadDhcpLine | src/main/kotlin/service/NetworkStackParser.kt:30-61 | the three tests on a section line are the body step |
| NetworkStackParser.DhcpSectionState | src/main/kotlin/service/NetworkStackParser.kt:23-28 | after any prefix the loop is in the section exactly when a header line has been seen, and the interface is the one the latest header names |
| NetworkStackParser.DhcpAppends | src/main/kotlin/service/NetworkStackParser.kt:30-40 | an `IPv4 address:` line in the section appends one record with the current interface and the line's address; with no server or DNS text on the line its other fields are empty |
| NetworkStackParser.DhcpPatches | src/main/kotlin/service/NetworkStackParser.kt:42-61 | any other line keeps the record count; it patches only the last record's server and lease, or DNS servers, and only on a section line with the matching text |
| NetworkStackParser.DhcpStepKeeps | src/main/kotlin/service/NetworkStackParser.kt:23-62 | one step never changes a record other than the last |
| NetworkStackParser.DhcpRecordsKept | src/main/kotlin/service/NetworkStackParser.kt:23-62 | every record but the last one at any point is final |
| NetworkStackParser.Unquoted | src/main/kotlin/service/NetworkStackParser.kt:83 | the network name has no double quotes left |
| NetworkStackParser.ProbeResult | src/main/kotlin/service/NetworkStackParser.kt:88-110 | "OK" exactly when the line contains the success marker |
| NetworkStackParser.ParseValidationLogs | src/main/kotlin/service/NetworkStackParser.kt:67-120 | the loop computes the validation fold, of which the first ten logs are returned |
| NetworkStackParser.ReadValidationLine | src/main/kotlin/service/NetworkStackParser.kt:79-116 | the four tests on a section line are the body step |
| NetworkStackParser.ReadProbes | src/main/kotlin/service/NetworkStackParser.kt:87-116 | the three probe tests give the probe logs for the network named so far |
| NetworkStackParser.WithIdentitySpec | src/main/kotlin/service/NetworkStackParser.kt:79-84 | a ` - ` line sets the network id and name from its split and changes nothing else |
| NetworkStackParser.ValidationSectionState | src/main/kotlin/service/NetworkStackParser.kt:73-77 | after any prefix the loop is in the section exactly when a header line has been seen |
| NetworkStackParser.ValidationStepIdentity | src/main/kotlin/service/NetworkStackParser.kt:79-85 | a step sets the network id and name exactly on a ` - ` line inside the section |
| NetworkStackParser.LatestAfterOpenStep | src/main/kotlin/service/NetworkStackParser.kt:79-85 | the latest identity after a header is decided by the last line when it qualifies, and by the lines before it otherwise |
| NetworkStackParser.ValidationIdentity | src/main/kotlin/service/NetworkStackParser.kt:70-85 | the current network id and name are those of the latest ` - ` line after the first header |
| NetworkStackParser.ValidationAppends | src/main/kotlin/service/NetworkStackParser.kt:87-98 | a `PROBE_DNS` line in the section appends one log for the current network whose DNS result is OK exactly when the line contains `OK` |
| NetworkStackParser.ValidationPatches | src/main/kotlin/service/NetworkStackParser.kt:100-116 | any other line keeps the log count and every log but the last, and with no log changes nothing |
| NetworkStackParser.ProbeHttpsSetsBoth | src/main/kotlin/service/NetworkStackParser.kt:100-116 | a `PROBE_HTTPS` line also contains `PROBE_HTTP`, so it sets the HTTP and HTTPS results alike, OK exactly on `ret=204` |
| NetworkStackParser.ValidationStepKeeps | src/main/kotlin/service/NetworkStackParser.kt:73-117 | one step never changes a log other than the last |
| NetworkStackParser.ValidationLogsKept | src/main/kotlin/service/NetworkStackParser.kt:73-117 | every log but the last one at any point is final |
| NetworkStackParser.ParseNetworkStackDump | src/main/kotlin/service/NetworkStackParser.kt:9-16 | the record holds the DHCP records and at most ten validation logs |
| ConnectivityParser.ParseNetworkProviders | src/main/kotlin/service/ConnectivityParser.kt:21-29 | none without a `NetworkProviders for:` line; every provider is a non-blank word without spaces |
| ConnectivityParser.ProvidersComeFromMarkerLine | src/main/kotlin/service/ConnectivityParser.kt:22-26 | the providers are exactly the non-blank pieces of the text after the marker on its first line, which the pieces rebuild when joined with spaces |
| ConnectivityParser.ParseActiveDefaultNetwork | src/main/kotlin/service/ConnectivityParser.kt:31-38 | empty without an `Active default network:` line; otherwise the trimmed text after the marker on the first line that has it |
| ConnectivityParser.FirstMarkerLineWins | src/main/kotlin/service/ConnectivityParser.kt:21-38 | only the first line with each marker counts: lines added after it change neither value |
| ConnectivityParser.ExtractListFromPattern | src/main/kotlin/service/ConnectivityParser.kt:158-165 | empty without a match; otherwise exactly the non-blank trimmed comma-separated pieces of the captured text |
| ConnectivityParser.NetworkType | src/main/kotlin/service/ConnectivityParser.kt:90-94 | WIFI exactly when the text names WIFI, CELLULAR when it names CELLULAR and not WIFI, UNKNOWN otherwise |
| ConnectivityParser.ConnectionState | src/main/kotlin/service/ConnectivityParser.kt:95-99 | CONNECTED exactly when the text contains CONNECTED, CONNECTING when it contains only CONNECTING, UNKNOWN otherwise |
| ConnectivityParser.DisconnectedReadsAsConnected | src/main/kotlin/service/ConnectivityParser.kt:95-99 | because CONNECTED is checked as a substring, a record in state DISCONNECTED reads as CONNECTED |
| ConnectivityParser.RecordFlags | src/main/kotlin/service/ConnectivityParser.kt:86-156 | a record's type, state, validated and explicitly-selected flags come from its substring tests |
| ConnectivityParser.WifiFieldsNeedTransportInfo | src/main/kotlin/service/ConnectivityParser.kt:116-128 | without `TransportInfo:` the SSID, BSSID, link speed, frequency and signal strength are empty |
| ConnectivityParser.RecordListsNotBlank | src/main/kotlin/service/ConnectivityParser.kt:106-110 | no address, DNS server or route entry is blank |
| ConnectivityParser.TransportInfoNeedsMarker | src/main/kotlin/service/ConnectivityParser.kt:145 | without `TransportInfo:` the transport text is empty |
| ConnectivityParser.FlushRecord | src/main/kotlin/service/ConnectivityParser.kt:53-58 | flushing a record empties the text being collected and keeps the section flag |
| ConnectivityParser.CollectLine | src/main/kotlin/service/ConnectivityParser.kt:62-72 | collecting a line keeps the section flag |
| ConnectivityParser.ParseAll | src/main/kotlin/service/ConnectivityParser.kt:54-56 | one parsed record per collected text |
| ConnectivityParser.ParseAllSpec | src/main/kotlin/service/ConnectivityParser.kt:54-56 | the record at each position is the parse of the text at that position |
| ConnectivityParser.Flush | src/main/kotlin/service/ConnectivityParser.kt:53-58 | flushing appends the parse of a non-empty text and records that text |
| ConnectivityParser.CollectNetworkLine | src/main/kotlin/service/ConnectivityParser.kt:51-73 | one section line (not `Requests:`) flushes on a blank line, then starts or extends the text being collected |
| ConnectivityParser.ParseCurrentNetworks | src/main/kotlin/service/ConnectivityParser.kt:40-84 | the loop's networks are the parses of the texts the scan collects, the last one flushed at the end |
| ConnectivityParser.ScanKeepsHeaderTexts | src/main/kotlin/service/ConnectivityParser.kt:62-72 | every collected text starts from a `NetworkAgentInfo` line |
| ConnectivityParser.NetworkTextsHaveHeaders | src/main/kotlin/service/ConnectivityParser.kt:62-72 | every current network comes from a text that holds a `NetworkAgentInfo` header |
| ConnectivityParser.NetworksStopAtRequests | src/main/kotlin/service/ConnectivityParser.kt:52-59 | inside the section a `Requests:` line ends the scan: nothing after it is read |
| ConnectivityParser.NothingBeforeSection | src/main/kotlin/service/ConnectivityParser.kt:45-51 | before the `Current Networks:` line nothing is collected, whatever the lines say |
| ConnectivityParser.StatsPartsOf | src/main/kotlin/service/ConnectivityParser.kt:176-182 | the k-th reading is that of the k-th part; `StatsPartOfKinds` states what a reading holds |
| ConnectivityParser.ReadRequestCounts | src/main/kotlin/service/ConnectivityParser.kt:171-183 | the inner loop computes the counters the parts of one line set |
| ConnectivityParser.ParseNetworkRequestStats | src/main/kotlin/service/ConnectivityParser.kt:167-189 | the method returns the counters of the first `Requests: REQUEST:` line, zeros without one |
| ConnectivityParser.StatsPartOfKinds | src/main/kotlin/service/ConnectivityParser.kt:177-182 | a part sets the counter its first matching prefix names, taken in the `when`'s order, to the number after its colon (0 if not an `Int`) |
| ConnectivityParser.StatsFromLastPart | src/main/kotlin/service/ConnectivityParser.kt:176-183 | each counter is the value of the last part that sets it, 0 without one |
| ConnectivityParser.FirstStatsLineWins | src/main/kotlin/service/ConnectivityParser.kt:168-186 | only the first `Requests: REQUEST:` line is read |
| ConnectivityParser.ParseNetworkRequestInfo | src/main/kotlin/service/ConnectivityParser.kt:222-242 | each of the six fields is the run after its key (`id=` digits, `NetworkRequest [ ` non-spaces, `Capabilities: ` up to `]`, `Transports: ` non-spaces, `RequestorUid: ` digits, `RequestorPkg: ` up to `]`) at the first occurrence of the key that has one, "" without it; no `RequestorPkg: ` gives an empty package |
| ConnectivityParser.RequestInfoFields | src/main/kotlin/service/ConnectivityParser.kt:224-229 | each of the six regex searches captures the run after the first occurrence of its key that has one, and finds nothing otherwise |
| ConnectivityParser.RequestsOf | src/main/kotlin/service/ConnectivityParser.kt:210 | the requests of a package are requests of the input naming that package |
| ConnectivityParser.GroupAllKeys | src/main/kotlin/service/ConnectivityParser.kt:192-214 | grouping keeps each package of the requests once, in first-seen order, and no other |
| ConnectivityParser.GroupAllValues | src/main/kotlin/service/ConnectivityParser.kt:210 | each package holds exactly its requests, in their original order, and at least one |
| ConnectivityParser.GroupAllSpec | src/main/kotlin/service/ConnectivityParser.kt:192-214 | the map of groups is valid, holds exactly the requested packages, each with exactly its requests |
| ConnectivityParser.RequestsOfAbsent | src/main/kotlin/service/ConnectivityParser.kt:210 | a package no request names has no requests |
| ConnectivityParser.Packages | src/main/kotlin/service/ConnectivityParser.kt:216-218 | one entry per package, in first-seen order; `PackagesSpec` states what each entry holds |
| ConnectivityParser.NamePosition | src/main/kotlin/service/ConnectivityParser.kt:219 | the insertion point is after every name that is smaller and before one that is not |
| ConnectivityParser.InsertByNameKeepsSorted | src/main/kotlin/service/ConnectivityParser.kt:219 | inserting at that point keeps the list sorted by name |
| ConnectivityParser.InsertByName | src/main/kotlin/service/ConnectivityParser.kt:219 | inserting adds exactly that entry and keeps a sorted list sorted |
| ConnectivityParser.SortByName | src/main/kotlin/service/ConnectivityParser.kt:219 | `sortedBy { it.packageName }` returns a permutation sorted by name |
| ConnectivityParser.PutRequest | src/main/kotlin/service/ConnectivityParser.kt:210 | `getOrPut(...).add(...)` updates the map and the insertion order as the grouping step does |
| ConnectivityParser.ParseNetworkRequestsByPackage | src/main/kotlin/service/ConnectivityParser.kt:191-220 | the loop, the map and the sort give the package entries the grouping defines |
| ConnectivityParser.PackagesSpec | src/main/kotlin/service/ConnectivityParser.kt:216-218 | entries have distinct names; each holds its package's requests and the uid of its first request; every package has an entry |
| ConnectivityParser.RequestsByPackageSorted | src/main/kotlin/service/ConnectivityParser.kt:216-219 | the entries are in increasing name order, each name once |
| ConnectivityParser.RequestsByPackageEntries | src/main/kotlin/service/ConnectivityParser.kt:205-218 | each entry holds exactly the section's requests for a non-blank package, at least one, with the first one's uid |
| ConnectivityParser.RequestsByPackageCovers | src/main/kotlin/service/ConnectivityParser.kt:205-219 | every request of the section is under its package |
| ConnectivityParser.SortByNameSameEntries | src/main/kotlin/service/ConnectivityParser.kt:219 | sorting neither adds nor drops an entry |
| ConnectivityParser.OnlyOnce | src/main/kotlin/service/ConnectivityParser.kt:219 | in a list with distinct names each entry occurs once |
| ConnectivityParser.PermutationKeepsNamesDistinct | src/main/kotlin/service/ConnectivityParser.kt:219 | a permutation of a list with distinct names has distinct names |
| ConnectivityParser.SectionRequestsNotBlank | src/main/kotlin/service/ConnectivityParser.kt:209 | only requests with a non-blank package are grouped |
| ConnectivityParser.IntsOf | src/main/kotlin/service/ConnectivityParser.kt:253 | `mapNotNull` keeps at most one number per piece |
| ConnectivityParser.IntsOfSpec | src/main/kotlin/service/ConnectivityParser.kt:253 | every number kept fits in 32 bits, and none is dropped when every piece is a number |
| ConnectivityParser.KeepaliveLinesOf | src/main/kotlin/service/ConnectivityParser.kt:249-261 | the k-th reading is that of the k-th line; `KeepaliveLineKinds` states what a reading holds |
| ConnectivityParser.ReadKeepaliveLine | src/main/kotlin/service/ConnectivityParser.kt:250-261 | one turn of the loop is the keepalive step on that line |
| ConnectivityParser.ParseSocketKeepaliveConfig | src/main/kotlin/service/ConnectivityParser.kt:244-265 | the loop computes the keepalive fold over all lines |
| ConnectivityParser.KeepaliveLineKinds | src/main/kotlin/service/ConnectivityParser.kt:250-261 | a line is read by the first branch of the `when` whose text it contains; the counts are the number after the first colon, 0 if not an `Int` |
| ConnectivityParser.SupportedFromLastLine | src/main/kotlin/service/ConnectivityParser.kt:251-254 | the supported list is that of the last `Supported Socket keepalives:` line, empty without one |
| ConnectivityParser.ReservedFromLastLine | src/main/kotlin/service/ConnectivityParser.kt:255-257 | the reserved count is that of the last matching line, 0 without one |
| ConnectivityParser.AllowedFromLastLine | src/main/kotlin/service/ConnectivityParser.kt:258-260 | the per-uid count is that of the last matching line, 0 without one |
| ConnectivityParser.ActivityLinesOf | src/main/kotlin/service/ConnectivityParser.kt:272-294 | the k-th reading is that of the k-th line; what the loop keeps of the readings is stated by `TimersNeedSection` and `TimerLineNonNegative` |
| ConnectivityParser.ReadActivityLine | src/main/kotlin/service/ConnectivityParser.kt:273-293 | one turn of the loop is the activity step on that line |
| ConnectivityParser.ParseNetworkActivity | src/main/kotlin/service/ConnectivityParser.kt:267-297 | the method's flag and timers are those of the activity fold over all lines |
| ConnectivityParser.TimerOfNonNegative | src/main/kotlin/service/ConnectivityParser.kt:282-290 | every timer read has a non-negative timeout and type |
| ConnectivityParser.TimerLineNonNegative | src/main/kotlin/service/ConnectivityParser.kt:280-291 | a timer line carries a timer with a non-negative timeout and type |
| ConnectivityParser.TimersNeedSection | src/main/kotlin/service/ConnectivityParser.kt:277-291 | without an `Idle timers:` line no timer is recorded; every timer recorded comes from a timer line |
| ConnectivityParser.RecordedTimersNonNegative | src/main/kotlin/service/ConnectivityParser.kt:267-297 | every recorded timeout and type is a non-negative number |
| ConnectivityParser.ParseConnectivityDump | src/main/kotlin/service/ConnectivityParser.kt:7-19 | the record holds the seven parts of the dump |
| WindowDumpModel.NewWindowInfo | src/main/kotlin/model/WindowDumpData.kt:10-45 | a window built from its header fields keeps them and takes the declared defaults: display 0, root task -1, owner uid -1, removal allowed, no flags, empty attributes, every other flag false |
| WindowDumpModel.ExtractFromFocusInfo | src/main/kotlin/model/WindowDumpData.kt:68-78 | the focus record keeps both inputs, takes its package from both and its activity from the focused app alone |
| WindowDumpModel.PackageSource | src/main/kotlin/model/WindowDumpData.kt:80-92 | a match in the current focus wins; without a `Window{` the focused app alone decides; with neither opener the package is empty |
| WindowDumpModel.ActivityNeedsSlash | src/main/kotlin/model/WindowDumpData.kt:94-98 | a focused app without a `/` gives no activity name, whatever the focused window says |
| WindowDumpParser.NextHeader | src/main/kotlin/service/WindowDumpParser.kt:322-332 | the first line at or after the start that trims to a `Window #` line containing `Window{`, or the line count; no earlier line is one |
| WindowDumpParser.SkipToNextWindow | src/main/kotlin/service/WindowDumpParser.kt:322-332 | the loop returns the next window header strictly after the start, or the line count, and skips no header |
| WindowDumpParser.KeyedPart | src/main/kotlin/service/WindowDumpParser.kt:217 | the first part starting with `key=`: every part before it lacks the prefix, and none has it when there is no such part |
| WindowDumpParser.ExtractStringValue | src/main/kotlin/service/WindowDumpParser.kt:222-225 | empty when no part carries the key; otherwise the text after `key=` in the first part that does |
| WindowDumpParser.ExtractIntValue | src/main/kotlin/service/WindowDumpParser.kt:216-220 | -1 when no part carries the key or its value is not a 32-bit decimal; otherwise that value |
| WindowDumpParser.IntValueRoundTrip | src/main/kotlin/service/WindowDumpParser.kt:216-220 | writing any 32-bit integer as the first `key=` part reads back the same integer |
| WindowDumpParser.BooleanNeedsExactToken | src/main/kotlin/service/WindowDumpParser.kt:227-229 | true only when some part carries the key; false when no part is exactly `key=true` |
| WindowDumpParser.MAttrsEnd | src/main/kotlin/service/WindowDumpParser.kt:242-259 | the collection loop takes at least one line past the mAttrs line and stays inside the dump |
| WindowDumpParser.MAttrsEndSpec | src/main/kotlin/service/WindowDumpParser.kt:242-259 | the block ends just past its first line that ends with `}` or starts another field; no line taken before it stops the loop |
| WindowDumpParser.CollectMAttrs | src/main/kotlin/service/WindowDumpParser.kt:237-261 | the loop builds the start line followed by each taken line, trimmed and preceded by a space |
| WindowDumpParser.MAttrsTakesThroughStop | src/main/kotlin/service/WindowDumpParser.kt:242-259 | with a stop line ahead, the block is the start line, every trimmed line before the stop line and the stop line itself, each after a space |
| WindowDumpParser.FlagList | src/main/kotlin/service/WindowDumpParser.kt:288-293 | no flag when the `fl=` or `pfl=` pattern does not match |
| WindowDumpParser.FlagListWords | src/main/kotlin/service/WindowDumpParser.kt:289 | every flag is a non-empty word without whitespace |
| WindowDumpParser.AttributeFlagsAreWords | src/main/kotlin/service/WindowDumpParser.kt:288-293 | both flag lists of a block hold only non-empty words without whitespace |
| WindowDumpParser.ParseComprehensiveMAttrs | src/main/kotlin/service/WindowDumpParser.kt:231-315 | the attributes keep the whole collected block as their raw text and read every field from it |
| WindowDumpParser.ScanBodyNext | src/main/kotlin/service/WindowDumpParser.kt:94-171 | reading one more body line applies that line's branch to the fields read so far |
| WindowDumpParser.ScanBodyGoesOn | src/main/kotlin/service/WindowDumpParser.kt:94-171 | the fields after line `j` are those before it stepped with line `j`'s branch |
| WindowDumpParser.EmptyBodyGivesDefaults | src/main/kotlin/service/WindowDumpParser.kt:56-90 | a window with no body lines has every field at its declared default and its text is its header line |
| WindowDumpParser.WindowAt | src/main/kotlin/service/WindowDumpParser.kt:47-54 | there is no window exactly when the header pattern does not match the line |
| WindowDumpParser.ReadBodyLine | src/main/kotlin/service/WindowDumpParser.kt:104-170 | the `when` over a body line picks the same field group as the branch order prescribes: the first matching prefix wins |
| WindowDumpParser.ReadBodyLineAt | src/main/kotlin/service/WindowDumpParser.kt:102-171 | one pass of the body loop adds the raw line to the text and applies its branch |
| WindowDumpParser.ReadWindowBody | src/main/kotlin/service/WindowDumpParser.kt:93-172 | the loop reads every line from just after the header up to the next window header |
| WindowDumpParser.BodyGoesOn | src/main/kotlin/service/WindowDumpParser.kt:97-100 | a non-header line before the next header does not end the body |
| WindowDumpParser.HeaderEndsBody | src/main/kotlin/service/WindowDumpParser.kt:97-100 | the first header line reached ends the body |
| WindowDumpParser.ParseWindow | src/main/kotlin/service/WindowDumpParser.kt:45-214 | `null` when the header does not match; otherwise the window read from its header and its body lines |
| WindowDumpParser.InsertPosition | src/main/kotlin/service/WindowDumpParser.kt:39 | every window before the position has a smaller number; the window at it does not |
| WindowDumpParser.InsertKeepsSorted | src/main/kotlin/service/WindowDumpParser.kt:39 | inserting at that position keeps a list sorted by window number |
| WindowDumpParser.Insert | src/main/kotlin/service/WindowDumpParser.kt:39 | the result holds the same windows plus the new one and stays sorted |
| WindowDumpParser.SortByNumber | src/main/kotlin/service/WindowDumpParser.kt:39 | `sortedBy`: sorted by window number and a permutation of the input |
| WindowDumpParser.SortByNumberStable | src/main/kotlin/service/WindowDumpParser.kt:39 | `sortedBy` is stable: windows with the same number keep their input order |
| WindowDumpParser.InsertNumberedWindows | src/main/kotlin/service/WindowDumpParser.kt:39 | an inserted window goes ahead of every window with its number |
| WindowDumpParser.Step | src/main/kotlin/service/WindowDumpParser.kt:17-35 | every pass of the dump loop moves forward and stays inside the dump |
| WindowDumpParser.ParseWindowDump | src/main/kotlin/service/WindowDumpParser.kt:10-43 | the loop computes the dump's windows and focus lines, and the windows come out sorted by number |
| WindowDumpParser.HeaderStep | src/main/kotlin/service/WindowDumpParser.kt:27-33 | a header that does not match is passed over; one that matches adds its window and jumps to the next header |
| WindowDumpParser.ScanKeepsWindows | src/main/kotlin/service/WindowDumpParser.kt:17-36 | the scan only appends windows: those it had stay first, in order |
| WindowDumpParser.FocusAfterLastWindowUnread | src/main/kotlin/service/WindowDumpParser.kt:27-33 | after the last window's header the rest of the dump is its body, so focus lines there are not read and exactly one window is added |
| WindowDumpParser.LaterFocusWins | src/main/kotlin/service/WindowDumpParser.kt:21-23 | of two `mCurrentFocus=` lines in a row, the second decides the current focus (the lemma covers adjacent lines only) |
| RouteParser.PrioritySpec | src/main/kotlin/service/RouteParser.kt:83-84 | the priority is the run of digits that starts the line when a colon follows it, otherwise empty |
| RouteParser.FwmarkSpec | src/main/kotlin/service/RouteParser.kt:89-90 | the firewall mark is the non-space run after the first `fwmark ` that has one (the optional `/mask` is part of that run), otherwise empty |
| RouteParser.FindFwmarkFrom | src/main/kotlin/service/RouteParser.kt:89 | searching with the `fwmark` pattern finds the same match as searching for `fwmark ` and a non-space run |
| RouteParser.LookupSpec | src/main/kotlin/service/RouteParser.kt:92-93 | the lookup is the non-space run after the first `lookup ` that has one, otherwise empty; it never holds a space |
| RouteParser.FromSourceSpec | src/main/kotlin/service/RouteParser.kt:86-87 | no source unless the line contains `from `; "" when no `from ` is followed by a non-space; otherwise the text from that first `from ` to the end of the last word of the line |
| RouteParser.MatchFrom | src/main/kotlin/service/RouteParser.kt:86 | the `from` regex matches at a position exactly when `from ` and a non-space start there, and captures from there to the end of the last word of the line |
| RouteParser.FindFromSource | src/main/kotlin/service/RouteParser.kt:86-87 | `find` succeeds exactly when some `from ` is followed by a non-space, and captures the text from the first such one to the end of the last word |
| RouteParser.LastNonSpaceEnd | src/main/kotlin/service/RouteParser.kt:86 | the end of the last word: only whitespace follows it, and the character before it is not whitespace |
| RouteParser.RepeatSpacedWords | src/main/kotlin/service/RouteParser.kt:86 | `(?:\s+[^\s]+)*` from the end of a word runs on to the end of the last word of the line |
| RouteParser.RuleTypeSpec | src/main/kotlin/service/RouteParser.kt:214-225 | `FROM_ALL` exactly when the line contains `from all`; one of the two `FROM` types exactly when it contains `from`; `UNKNOWN` exactly when it contains none of the six keywords |
| RouteParser.RouteTypeSpec | src/main/kotlin/service/RouteParser.kt:227-237 | never `MULTICAST`; `DEFAULT` exactly for destination `default`; `LOCAL` and `BROADCAST` by the destination in that order; `UNICAST` exactly when no earlier test and none of `blackhole`, `unreachable`, `prohibit` in the line holds |
| RouteParser.TableNameSpec | src/main/kotlin/service/RouteParser.kt:239-246 | `254`/`main`, `255`/`local` and `253`/`default` get the three reserved names; any other number `n` gets `table_n`, and two different numbers share a name only when the name is reserved |
| RouteParser.RuleDescriptionNames | src/main/kotlin/service/RouteParser.kt:248-259 | the description names the lookup table for `FROM_ALL`, `FROM_SPECIFIC` and `LOOKUP` rules, the source for `FROM_SPECIFIC` and the mark for `FWMARK` |
| RouteParser.RouteDescriptionNames | src/main/kotlin/service/RouteParser.kt:261-278 | a default route's description names its gateway and interface; every other type but `MULTICAST` names the destination |
| RouteParser.TableDescriptionCounts | src/main/kotlin/service/RouteParser.kt:280-297 | every table description states how many routes the table has |
| RouteParser.IpRuleSpec | src/main/kotlin/service/RouteParser.kt:80-110 | the rule keeps its line, reads its lookup as above, takes the lookup as table number unless it is blank; a source implies a `FROM` type, a mark implies a `FROM` or `FWMARK` type, and a lookup rules out `UNKNOWN` |
| RouteParser.FieldOfSet | src/main/kotlin/service/RouteParser.kt:168-192 | each keyword's branch sets its own field and no other |
| RouteParser.ParseRouteLine | src/main/kotlin/service/RouteParser.kt:150-212 | the loop over the tokens computes the route entry of the line |
| RouteParser.Stops | src/main/kotlin/service/RouteParser.kt:166-195 | the tokens the loop looks at: the first is token 1, each next one follows from the previous token's branch, and the last one leaves the loop |
| RouteParser.LastSetCons | src/main/kotlin/service/RouteParser.kt:166-195 | reading a field over the loop's stops can be split at the first stop |
| RouteParser.ScanRouteLastSet | src/main/kotlin/service/RouteParser.kt:166-195 | the loop leaves in each field what the reference reading gives: the value after the last keyword of that field that has one |
| RouteParser.LastSetSpec | src/main/kotlin/service/RouteParser.kt:168-192 | a field no stop sets keeps its default; otherwise it holds the token after the last stop that sets it |
| RouteParser.RouteFieldsSpec | src/main/kotlin/service/RouteParser.kt:159-195 | every one of the six fields, starting empty, ends as the last value its keyword gave |
| RouteParser.RouteLineSpec | src/main/kotlin/service/RouteParser.kt:150-212 | the destination is the first space-separated token, the line is kept, the six fields come from the loop and the route is `DEFAULT` exactly for a `default` destination |
| RouteParser.ParseIpRules | src/main/kotlin/service/RouteParser.kt:62-78 | the loop reads every non-blank line as a rule |
| RouteParser.IpRulesSpec | src/main/kotlin/service/RouteParser.kt:62-78 | one rule per non-blank line, in order, each read from the trimmed line and keeping a non-empty original line |
| RouteParser.ParseRouteTable | src/main/kotlin/service/RouteParser.kt:124-148 | the table read from a query's output: its number, its name, its routes and its description |
| RouteParser.RouteTableSpec | src/main/kotlin/service/RouteParser.kt:124-148 | one route per non-blank line of the output, in order, each read from the trimmed line; the table keeps its number, takes its name from it and its description states the route count |
| RouteParser.ParseRoutes | src/main/kotlin/service/RouteParser.kt:128-137 | one route per non-blank line, in order |
| RouteParser.TableNumbers | src/main/kotlin/service/RouteParser.kt:115-119 | the rules' table numbers, in order |
| RouteParser.ExtractTableNumbers | src/main/kotlin/service/RouteParser.kt:112-122 | the loop keeps the table numbers that pass the filter, in order |
| RouteParser.KeptTablesSpec | src/main/kotlin/service/RouteParser.kt:112-122 | a table is kept exactly when some rule names it and it is neither blank, `main` nor `local` |
| RouteParser.QueriedTablesSpec | src/main/kotlin/service/RouteParser.kt:26-29 | the queried tables are distinct, include `main` and `local`, and are exactly those two and the non-blank tables some rule names |
| RouteParser.KeptTable | src/main/kotlin/service/RouteParser.kt:37-44 | a query keeps at most one table, with the number it asked for |
| RouteParser.QueryTable | src/main/kotlin/service/RouteParser.kt:31-44 | one table is kept when its output is not an error report and has routes |
| RouteParser.QueryTables | src/main/kotlin/service/RouteParser.kt:29-48 | the loop keeps the tables of the queried numbers, in query order |
| RouteParser.TablesFromSpec | src/main/kotlin/service/RouteParser.kt:29-48 | a table is kept exactly when it was queried, its output is not an error report, it has routes and it is the table read from that output; distinct numbers give distinct tables |
| RouteParser.ParseRouteData | src/main/kotlin/service/RouteParser.kt:7-60 | the route query computes the rules and tables read from the commands' outputs |
| RouteParser.RouteDataSpec | src/main/kotlin/service/RouteParser.kt:7-60 | a failed rule query gives only its error; otherwise the rules of its output, no errors, and exactly the queried tables that have routes, each once |
| BugreportParser.WindowStart | src/main/kotlin/service/BugreportParser.kt:168-172 | the line that switches the flag on lies inside the input |
| BugreportParser.WindowStartSpec | src/main/kotlin/service/BugreportParser.kt:168-172 | the flag is switched on at the first line that opens the section; no earlier line does |
| BugreportParser.WindowEnd | src/main/kotlin/service/BugreportParser.kt:174-176 | the line that stops the loop lies at or after its start, or the loop runs to the end |
| BugreportParser.WindowEndSpec | src/main/kotlin/service/BugreportParser.kt:168-176 | the loop stops at the first line that closes the section without opening it again; no earlier one does |
| BugreportParser.CollectMembers | src/main/kotlin/service/BugreportParser.kt:178-180 | a row is collected exactly when some line in range that does not reopen the section gives it |
| BugreportParser.ScanWindow | src/main/kotlin/service/BugreportParser.kt:164-184 | the flag loop shared by `extractSection` and `parseTopProcesses` computes the lines of the window after the first opening line, up to the first closing line |
| BugreportParser.WindowSpec | src/main/kotlin/service/BugreportParser.kt:164-184 | nothing without an opening line; otherwise a row is collected exactly when it comes from a later line that does not reopen the section and no closing line lies between the opening and it |
| BugreportParser.ExtractSection | src/main/kotlin/service/BugreportParser.kt:164-184 | the loop returns the section's lines |
| BugreportParser.SectionSpec | src/main/kotlin/service/BugreportParser.kt:164-184 | no line carries the start marker: empty; otherwise a line is in the section exactly when it follows the first start-marker line, carries no start marker, and no line from there to it starts with the end marker without carrying the start marker |
| BugreportParser.NoSection | src/main/kotlin/service/BugreportParser.kt:164-184 | no section without a line carrying the start marker |
| BugreportParser.WithoutPercent | src/main/kotlin/service/BugreportParser.kt:220 | the usage text holds no `%` |
| BugreportParser.RowProcess | src/main/kotlin/service/BugreportParser.kt:216-227 | a line gives at most one process |
| BugreportParser.RowProcessSpec | src/main/kotlin/service/BugreportParser.kt:216-227 | a process comes from a line with a `%` and at least four columns: the pid is the first column and the name the last, both non-empty |
| BugreportParser.ParseTopProcesses | src/main/kotlin/service/BugreportParser.kt:202-232 | the loop returns the first ten processes of the listing |
| BugreportParser.TopProcessesBounds | src/main/kotlin/service/BugreportParser.kt:207-231 | at most ten processes, and none without a `top -` or `TOP PROCESSES` line |
| BugreportParser.TopProcessesSpec | src/main/kotlin/service/BugreportParser.kt:202-232 | every process comes from a row after the first marker line, with no blank line between the marker and it |
| BugreportParser.FirstNumberFrom | src/main/kotlin/service/BugreportParser.kt:235 | the first place at or after the start where a number followed by the unit sits; none before it |
| BugreportParser.DigitsAt | src/main/kotlin/service/BugreportParser.kt:235 | the captured group holds only digits |
| BugreportParser.NumberBefore | src/main/kotlin/service/BugreportParser.kt:235 | the reference reading of `(\d+)\s*kB` captures at least one digit and only digits |
| BugreportParser.NoUnitAt | src/main/kotlin/service/BugreportParser.kt:235 | the unit cannot start at a character other than its first |
| BugreportParser.MatchUnit | src/main/kotlin/service/BugreportParser.kt:235 | matching the literal unit at a position gives the unit result there |
| BugreportParser.SpacesThenUnit | src/main/kotlin/service/BugreportParser.kt:235 | backing off below the whole run of spaces never reaches the unit |
| BugreportParser.MatchSpacesUnit | src/main/kotlin/service/BugreportParser.kt:235 | `\s*unit` matches exactly when the unit follows the whole run of spaces |
| BugreportParser.MatchAfterDigits | src/main/kotlin/service/BugreportParser.kt:235 | closing the group after some digits leaves `\s*unit` to the rest |
| BugreportParser.DigitsBackOff | src/main/kotlin/service/BugreportParser.kt:235 | giving back digits never lets `\s*unit` match, since a digit follows |
| BugreportParser.NumberUnfold | src/main/kotlin/service/BugreportParser.kt:235 | `(\d+)` fails without a digit and otherwise backtracks over the digit run |
| BugreportParser.NumberLongest | src/main/kotlin/service/BugreportParser.kt:235 | only the whole digit run can be followed by `\s*unit` |
| BugreportParser.MatchNumberResult | src/main/kotlin/service/BugreportParser.kt:235 | the whole match with the backtracking resolved |
| BugreportParser.AfterAllDigits | src/main/kotlin/service/BugreportParser.kt:235 | after the whole digit run the match succeeds exactly where a number sits, capturing the run |
| BugreportParser.MatchNumber | src/main/kotlin/service/BugreportParser.kt:235 | `(\d+)\s*unit` matches at a position exactly where a number sits, capturing the whole digit run |
| BugreportParser.FindNumberHere | src/main/kotlin/service/BugreportParser.kt:235 | the search succeeds at a position where a number sits, with its digits |
| BugreportParser.FindNumberFrom | src/main/kotlin/service/BugreportParser.kt:235 | the search finds a match exactly when the reference finds a number, with the same digits |
| BugreportParser.NumberNeedsUnit | src/main/kotlin/service/BugreportParser.kt:235 | a number is read only where the unit occurs |
| BugreportParser.FindNumber | src/main/kotlin/service/BugreportParser.kt:235 | the regex search captures exactly the reference reading, and nothing without the unit |
| BugreportParser.ExtractMemoryValue | src/main/kotlin/service/BugreportParser.kt:234-237 | the value is a 64-bit `Long` |
| BugreportParser.Wrap64KeepsKilobytes | src/main/kotlin/service/BugreportParser.kt:236 | wrapping to 64 bits keeps a multiple of 1024 one |
| BugreportParser.DigitsToLong | src/main/kotlin/service/BugreportParser.kt:236 | a digit run within the `Long` range reads as its value |
| BugreportParser.ExtractMemoryValueSpec | src/main/kotlin/service/BugreportParser.kt:234-237 | 0 without a `<digits> kB` figure; always a multiple of 1024; the figure times 1024 wherever that fits in a `Long` |
| BugreportParser.CpuStepText | src/main/kotlin/service/BugreportParser.kt:33-49 | a line changes only the text field of its own branch |
| BugreportParser.LastOf | src/main/kotlin/service/BugreportParser.kt:32-50 | the last line of a kind lies in the lines read |
| BugreportParser.LastOfSpec | src/main/kotlin/service/BugreportParser.kt:32-50 | none exactly when no line read is of that kind; otherwise a line of that kind with none after it |
| BugreportParser.CpuScanText | src/main/kotlin/service/BugreportParser.kt:40-48 | the model name, clock speed and architecture are those of the last line of their branch, empty without one |
| BugreportParser.CpuStepCount | src/main/kotlin/service/BugreportParser.kt:34-39 | a processor line with an index at least the count raises the count to one past it; any other line keeps it |
| BugreportParser.CpuScanCount | src/main/kotlin/service/BugreportParser.kt:32-50 | the loop's count depends on the processor indices alone |
| BugreportParser.ProcessorCountSpec | src/main/kotlin/service/BugreportParser.kt:25-39 | the count is never negative, exceeds every non-negative index read, and when positive is one past an index read: the highest index plus one |
| BugreportParser.ReadCpuSection | src/main/kotlin/service/BugreportParser.kt:32-50 | the loop leaves the four variables as the scan of the section gives them |
| BugreportParser.ParseCpuInfo | src/main/kotlin/service/BugreportParser.kt:21-71 | the processor summary read from the cpuinfo section and the `top` listing |
| BugreportParser.MemStepField | src/main/kotlin/service/BugreportParser.kt:89-111 | a line changes only its own key's variable, to the line's value |
| BugreportParser.MemScanField | src/main/kotlin/service/BugreportParser.kt:87-113 | each figure is the value of the last line with its key, and 0 without one |
| BugreportParser.MemKeyOfSpec | src/main/kotlin/service/BugreportParser.kt:89-111 | a line takes a key's branch exactly when it starts with that key |
| BugreportParser.KeysDistinguished | src/main/kotlin/service/BugreportParser.kt:89-111 | no line starts with two different keys, so the order of the branches does not matter |
| BugreportParser.ReadMemSection | src/main/kotlin/service/BugreportParser.kt:87-113 | the loop leaves the seven variables as the scan of the section gives them |
| BugreportParser.JoinHead | src/main/kotlin/service/BugreportParser.kt:272 | a join of issues starts with the first issue's first character |
| BugreportParser.AvailableMBSpec | src/main/kotlin/service/BugreportParser.kt:267-268 | below 100 MB exactly when below 104857600 bytes, negative amounts included; for a non-negative amount the whole megabytes |
| BugreportParser.MemoryStatusNormal | src/main/kotlin/service/BugreportParser.kt:256-273 | `正常` exactly when usage is at most 80% and at least 100 MB are available |
| BugreportParser.MemoryStatusUsage | src/main/kotlin/service/BugreportParser.kt:259-264 | usage above 80% is reported first: as too high above 90%, as raised otherwise, with the formatted percentage |
| BugreportParser.MemoryStatusLow | src/main/kotlin/service/BugreportParser.kt:266-270 | less than 100 MB available is reported with the whole number of megabytes |
| BugreportParser.UsagePercentageBounds | src/main/kotlin/service/BugreportParser.kt:117-119 | used memory within the total gives a percentage between 0 and 100 |
| BugreportParser.SummarizeMemory | src/main/kotlin/service/BugreportParser.kt:115-136 | the derived figures: used swap and used memory as 64-bit differences, the percentage and the status |
| BugreportParser.ParseMemoryInfo | src/main/kotlin/service/BugreportParser.kt:73-137 | the memory summary read from the meminfo section |
| BugreportParser.NoMemInfo | src/main/kotlin/service/BugreportParser.kt:73-137 | without a meminfo section every figure is 0 and the status reports 0 MB available |
| BugreportParser.ServiceDumpAbsent | src/main/kotlin/service/BugreportParser.kt:149-160 | a service whose marker no line carries has no dump |
| BugreportParser.NoNetworkDumps | src/main/kotlin/service/BugreportParser.kt:139-162 | where no line carries any of the four service markers there are no dumps, and the route dump is never filled in |
| BugreportParser.ParseBugreport | src/main/kotlin/service/BugreportParser.kt:13-19 | the bug report's processor summary, memory summary and network dumps |
| BugreportParser.ServiceDumpPresent | src/main/kotlin/service/BugreportParser.kt:149-160 | a service whose first marker line is followed by a line of its section has a dump, parsed from the section joined with line breaks |
| Text.TrimBounds | src/main/kotlin/service/WindowDumpParser.kt:95 | `trim()` keeps a contiguous slice of the line that neither starts nor ends with whitespace |
| Text.BlankIffTrimEmpty | src/main/kotlin/service/RouteParser.kt:64 | a line is blank exactly when trimming leaves nothing |
| Text.SplitHead | src/main/kotlin/service/WindowDumpParser.kt:106 | the first piece of `split(d)` is the text before the first `d`, and there is more than one piece exactly when `d` occurs |
| Text.JoinSplit | src/main/kotlin/service/BugreportParser.kt:150 | splitting on a delimiter and joining with it gives back the text |
| Text.SplitPiecesLackDelimiter | src/main/kotlin/service/WindowDumpParser.kt:106 | no piece of a split contains the delimiter |
| Text.SubstringAroundDelimiter | src/main/kotlin/service/WindowDumpParser.kt:22 | `substringBefore` and `substringAfter` rebuild the text around the first delimiter; both give the whole text when it is absent |
| Text.IntToStringRoundTrip | src/main/kotlin/service/WindowDumpParser.kt:216-220 | `toIntOrNull` reads back every rendered 32-bit `Int` |
| Text.Wrap64 | src/main/kotlin/service/BugreportParser.kt:115-116 | `Long` arithmetic wraps into the 64-bit range and leaves in-range results alone |
| Text.Distinct | src/main/kotlin/service/RouteParser.kt:29 | `distinct()` keeps every element once and only those |
| Text.Take | src/main/kotlin/service/BugreportParser.kt:231 | `take(n)` is the prefix of length at most `n` |
| Patterns.FindFromSpec | src/main/kotlin/service/WindowDumpParser.kt:129-131 | `find` returns the leftmost position where the pattern matches, with that match's end and groups |
| Patterns.FindKeyedRun | src/main/kotlin/service/WindowDumpParser.kt:129-135 | `key(k+)` captures the whole run of class `k` after the first occurrence of `key` that has one |
| Patterns.FindWithoutLit | src/main/kotlin/service/WindowDumpParser.kt:129-135 | a pattern that begins with a literal finds nothing in a text without that literal |
| Patterns.FindAllValues | src/main/kotlin/service/NetworkStackParser.kt:144 | the `findAll` loop collects group `n` of every successive match |
| Patterns.NextMatch | src/main/kotlin/service/NetworkStackParser.kt:144 | one step of `findAll`: no value ends the list, and after an empty match the search resumes one character on |

## Left out

- Running adb: `parseRouteData` gets the output of `ip rule show` and a function from table number to the output of `ip route show table <n>`. Neither `AdbService` nor the coroutine around it is modelled.
- Exceptions: the `catch` branches of the parsers are not modelled. On text input, no step inside their `try` blocks throws: indexes are guarded, and conversions use the `…OrNull` forms. The catch branches of `parseRouteData` guard the adb calls, which are parameters here. So its "General parsing error" and per-table error messages are not modelled either.
- Clocks: the `timestamp` fields that default to `System.currentTimeMillis()` in the activity and window dump records are not part of the records.
- Floating point:
  - the load average (`parseLoadAverage`) and `detectCpuAbnormalStatus`, which is built from it and from the `Double` usage of each process;
  - the per-core usage records;
  - the three window alpha values.
- A process's `cpuUsage` is kept as the text of the ninth column without `%`. It is not converted to a `Double`.
- The memory usage percentage is an exact `real`, not a rounded `Double`. `String.format("%.1f", …)` is the parameter `formatPercent`.
- `BugreportParser.ProcessorCountSpec`: assumes no processor index equals `Int.MAX_VALUE`. For that index, `count + 1` wraps to a negative count in Kotlin. The loop itself (`ReadCpuSection`) models the wrap.
- `lowMemoryThreshold` is always 0, because `parseMemoryInfo` never sets it. The `totalMemory` parameter of `detectMemoryAbnormalStatus` is unused there, so the model does not take it.
- The enum `RouteTableType` of the route records is not modelled, because no parser uses it.
- The user interface (`ui/`, `Main.kt`) and its byte and memory formatting are not part of this model. Neither are the refresh scheduler (`AutoRefreshService.kt`) and the cache of parsed results (`DataCacheManager.kt`), because they hold no parsing logic.
- `toIntOrNull` and `toLongOrNull` accept ASCII digits only. Kotlin also accepts other Unicode decimal digits.
- `Text.LexLeq`: compares Unicode scalar values, while Kotlin's `String.compareTo` compares UTF-16 code units. The two orders differ only between a character above U+FFFF and one in U+E000–U+FFFF. Modelling surrogate pairs would need a UTF-16 encoding of `string`, which the parsers do not otherwise need.
