/** `WindowDumpParser`: rebuilds the list of windows, and the focus lines, from the text of
    `dumpsys window windows`. The outer scan and each window's body scan are methods with the loops
    of the Kotlin code, proved equal to functions that state their results. */
module WindowDumpParser {
  import opened Text
  import opened Patterns
  import opened WindowDumpModel

  // ----- Window headers and the outer cursor -----

  /** A trimmed line that starts a window. */
  predicate IsWindowHeader(line: string)
  {
    StartsWith(line, "Window #") && Contains(line, "Window{")
  }

  /** The first window header at or after `from`, or `|lines|` when there is none. */
  function NextHeader(lines: seq<string>, from: nat): (j: nat)
    requires from <= |lines|
    ensures from <= j <= |lines|
    ensures j < |lines| ==> IsWindowHeader(Trim(lines[j]))
    ensures forall k {:trigger IsWindowHeader(Trim(lines[k]))} :: from <= k < j ==> !IsWindowHeader(Trim(lines[k]))
  {
    FirstTrimmedFrom(lines, from, IsWindowHeader)
  }

  /** `skipToNextWindow`: the index of the next window header after `start`, or `|lines|`. */
  method SkipToNextWindow(lines: seq<string>, start: nat) returns (j: nat)
    requires start < |lines|
    ensures start < j <= |lines|
    ensures j < |lines| ==> IsWindowHeader(Trim(lines[j]))
    ensures forall k {:trigger IsWindowHeader(Trim(lines[k]))} :: start < k < j ==> !IsWindowHeader(Trim(lines[k]))
    ensures j == NextHeader(lines, start + 1)
  {
    j := start + 1;
    while j < |lines|
      invariant start + 1 <= j <= NextHeader(lines, start + 1)
    {
      var line := Trim(lines[j]);
      if IsWindowHeader(line) {
        return;
      }
      j := j + 1;
    }
  }

  /** `Window #(\d+) Window\{(\w+) u(\d+) ([^}]+)\}:`. */
  const HeaderPattern: Pattern :=
    [ Lit("Window #"), Group(1, [Plus(Digit)]), Lit(" Window{"), Group(2, [Plus(Word)]), Lit(" u"),
      Group(3, [Plus(Digit)]), Lit(" "), Group(4, [Plus(Not(Chars("}")))]), Lit("}:") ]

  // ----- Field helpers -----

  /** A space-separated part that carries `key`. */
  predicate HasKey(part: string, key: string)
  {
    StartsWith(part, key + "=")
  }

  /** The first part that carries `key`. */
  function KeyedPart(parts: seq<string>, key: string): (r: Option<nat>)
    ensures r.Some? ==> r.value < |parts| && HasKey(parts[r.value], key)
    ensures forall k :: 0 <= k < |parts| && (r.None? || k < r.value) ==> !HasKey(parts[k], key)
  {
    FirstIndexFrom(parts, 0, p => HasKey(p, key))
  }

  /** `extractStringValue`: the text after `key=` in the first part that carries `key`, or "". */
  function ExtractStringValue(parts: seq<string>, key: string): (v: string)
    ensures KeyedPart(parts, key).None? ==> v == ""
    ensures KeyedPart(parts, key).Some? ==> v == parts[KeyedPart(parts, key).value][|key| + 1..]
  {
    match KeyedPart(parts, key)
    case None => ""
    case Some(k) =>
      SubstringAfterPrefix(parts[k], key + "=");
      SubstringAfter(parts[k], key + "=")
  }

  /** `extractIntValue`: the first part that carries `key`, read as an Int; -1 when no part carries
      it or its value is not a number. */
  function ExtractIntValue(parts: seq<string>, key: string): (v: int)
    ensures KeyedPart(parts, key).None? ==> v == -1
    ensures KeyedPart(parts, key).Some? ==>
              var t := parts[KeyedPart(parts, key).value][|key| + 1..];
              v == if ToIntOrNull(t).Some? then ToIntOrNull(t).value else -1
  {
    match KeyedPart(parts, key)
    case None => -1
    case Some(k) =>
      assert ExtractStringValue(parts, key) == parts[k][|key| + 1..];
      IntOr(Some(ExtractStringValue(parts, key)), -1)
  }

  /** `extractBooleanValue`: some part is exactly `key=true`. */
  predicate ExtractBooleanValue(parts: seq<string>, key: string)
  {
    exists k :: 0 <= k < |parts| && parts[k] == key + "=true"
  }

  /** A flag is set only by the exact token: a part `key=true` carries the key, and a part such as
      `key=truely` or `key=TRUE` does not set it. */
  lemma BooleanNeedsExactToken(parts: seq<string>, key: string)
    ensures ExtractBooleanValue(parts, key) ==> KeyedPart(parts, key).Some?
    ensures (forall k :: 0 <= k < |parts| ==> parts[k] != key + "=true") ==> !ExtractBooleanValue(parts, key)
  {
    if ExtractBooleanValue(parts, key) {
      var k :| 0 <= k < |parts| && parts[k] == key + "=true";
      assert parts[k][..|key + "="|] == key + "=";
      assert HasKey(parts[k], key);
    }
  }

  /** A part that is `key=` followed by the rendering of an Int gives back that Int when it is the
      first part that carries the key. */
  lemma IntValueRoundTrip(parts: seq<string>, key: string, k: nat, n: int)
    requires k < |parts| && parts[k] == key + "=" + IntToString(n) && INT_MIN <= n <= INT_MAX
    requires forall q :: 0 <= q < k ==> !HasKey(parts[q], key)
    ensures ExtractIntValue(parts, key) == n
  {
    var t := IntToString(n);
    assert parts[k][..|key + "="|] == key + "=";
    assert HasKey(parts[k], key);
    assert KeyedPart(parts, key) == Some(k);
    assert parts[k][|key| + 1..] == t;
    IntToStringRoundTrip(n);
    assert ToIntOrNull(t) == Some(n);
  }

  // ----- The mAttrs block -----

  /** A trimmed continuation line after which the mAttrs block ends (it is still included). */
  predicate EndsMAttrs(line: string)
  {
    EndsWith(line, "}") || StartsWith(line, "Requested") || StartsWith(line, "mHasSurface")
    || StartsWith(line, "WindowStateAnimator") || StartsWith(line, "mForceSeamlessly")
  }

  /** One past the last line the block takes after its first line at `start`: just past the first
      line that ends it, or `|lines|`. */
  function MAttrsEnd(lines: seq<string>, start: nat): (e: nat)
    requires start < |lines|
    ensures start < e <= |lines|
  {
    var stop := FirstTrimmedFrom(lines, start + 1, EndsMAttrs);
    if stop < |lines| then stop + 1 else |lines|
  }

  /** The block ends just past its first stop line, and no line it takes before that one stops it. */
  lemma MAttrsEndSpec(lines: seq<string>, start: nat)
    requires start < |lines|
    ensures var e := MAttrsEnd(lines, start);
            e < |lines| ==> EndsMAttrs(Trim(lines[e - 1])) && e - 1 > start
    ensures var e := MAttrsEnd(lines, start);
            forall k {:trigger EndsMAttrs(Trim(lines[k]))} :: start < k < e - 1 ==> !EndsMAttrs(Trim(lines[k]))
  {
  }

  /** The lines `[from, hi)`, each trimmed and preceded by one space. */
  function Continuation(lines: seq<string>, from: nat, hi: nat): string
    requires hi <= |lines|
    decreases hi
  {
    if hi <= from then "" else Continuation(lines, from, hi - 1) + " " + Trim(lines[hi - 1])
  }

  /** The text of the mAttrs block whose first line `startLine` is at `start`. */
  function MAttrsText(startLine: string, lines: seq<string>, start: nat): string
    requires start < |lines|
  {
    startLine + Continuation(lines, start + 1, MAttrsEnd(lines, start))
  }

  /** `mAttrs=\{([^}]*?)(?:\s|gr=)`. */
  const PositionPattern: Pattern :=
    [ Lit("mAttrs={"), Group(1, [FewestMany(Not(Chars("}")))]), Alt([Exactly(Space, 1), Lit("gr=")]) ]

  /** `key([^\s}]+(?:\s+[^\s}]+)*)`: words up to a `}`, as `gr=` and `vsysui=` are read. */
  function WordsPattern(key: string): Pattern
  {
    [ Lit(key), Group(1, [Plus(NonSpaceNor("}")), Star([Plus(Space), Plus(NonSpaceNor("}"))])]) ]
  }

  /** `sim=\{([^}]+)\}`. */
  const SoftInputPattern: Pattern := [ Lit("sim={"), Group(1, [Plus(Not(Chars("}")))]), Lit("}") ]

  /** `key([^\n]*?)(?:\s+stop1|\s+stop2|...|}|$)`: the flag list after `key`, up to the first field that
      may follow it. */
  function FlagsPattern(key: string, stops: seq<string>): Pattern
  {
    [ Lit(key), Group(1, [FewestMany(Not(Chars("\n")))]),
      Alt(seq(|stops|, i requires 0 <= i < |stops| => Seq([Plus(Space), Lit(stops[i])])) + [Lit("}"), End]) ]
  }

  /** A flag list: the capture trimmed and split into its words, or no flags when the pattern does
      not match. */
  function FlagList(capture: Option<string>): (flags: seq<string>)
    ensures capture.None? ==> flags == []
  {
    match capture
    case None => []
    case Some(c) => Words(Trim(c))
  }

  /** The attributes read from the block's text. */
  function AttributesOf(full: string): (a: WindowAttributes)
    ensures a.rawMAttrs == full
  {
    WindowAttributes(
      position := match FindGroup(PositionPattern, full, 1) case Some(p) => Trim(p) case None => "",
      gravity := StringOr(FindGroup(WordsPattern("gr="), full, 1), ""),
      softInputMode := StringOr(FindGroup(SoftInputPattern, full, 1), ""),
      layoutInDisplayCutoutMode := StringOr(FindGroup(KeyedRun("layoutInDisplayCutoutMode=", NonSpaceNor("}")), full, 1), ""),
      windowType := StringOr(FindGroup(KeyedRun("ty=", NonSpaceNor("}")), full, 1), ""),
      format := StringOr(FindGroup(KeyedRun("fmt=", NonSpaceNor("}")), full, 1), ""),
      flags := FlagList(FindGroup(FlagsPattern("fl=", ["pfl=", "vsysui=", "bhv="]), full, 1)),
      privateFlags := FlagList(FindGroup(FlagsPattern("pfl=", ["vsysui=", "bhv="]), full, 1)),
      systemUiVisibility := StringOr(FindGroup(WordsPattern("vsysui="), full, 1), ""),
      behavior := StringOr(FindGroup(KeyedRun("bhv=", NonSpaceNor("}")), full, 1), ""),
      rawMAttrs := full)
  }

  /** Every flag is a non-empty word without whitespace. */
  lemma FlagListWords(capture: Option<string>)
    ensures forall f :: f in FlagList(capture) ==> |f| > 0 && NoRegexSpace(f)
  {
  }

  /** Both flag lists of a block hold only non-empty words without whitespace. */
  lemma AttributeFlagsAreWords(full: string)
    ensures forall f :: f in AttributesOf(full).flags + AttributesOf(full).privateFlags ==> |f| > 0 && NoRegexSpace(f)
  {
    FlagListWords(FindGroup(FlagsPattern("fl=", ["pfl=", "vsysui=", "bhv="]), full, 1));
    FlagListWords(FindGroup(FlagsPattern("pfl=", ["vsysui=", "bhv="]), full, 1));
  }

  /** The collecting loop of `parseComprehensiveMAttrs`: the first line, then each following line
      trimmed and joined with a space, up to and including the first line that ends with `}` or starts
      a field that follows the block. */
  method CollectMAttrs(startLine: string, lines: seq<string>, startIndex: nat) returns (text: string)
    requires startIndex < |lines|
    ensures text == MAttrsText(startLine, lines, startIndex)
  {
    text := startLine;
    var j := startIndex + 1;
    ghost var stop := FirstTrimmedFrom(lines, startIndex + 1, EndsMAttrs);
    while j < |lines|
      invariant startIndex + 1 <= j <= stop
      invariant text == startLine + Continuation(lines, startIndex + 1, j)
    {
      var line := lines[j];
      var trimmed := Trim(line);
      text := text + " " + trimmed;
      if EndsWith(trimmed, "}") {
        assert EndsMAttrs(trimmed) && j == stop;
        MAttrsStopsAt(startLine, lines, startIndex, j);
        break;
      }
      if StartsWith(trimmed, "Requested") || StartsWith(trimmed, "mHasSurface")
         || StartsWith(trimmed, "WindowStateAnimator") || StartsWith(trimmed, "mForceSeamlessly") {
        assert EndsMAttrs(trimmed) && j == stop;
        MAttrsStopsAt(startLine, lines, startIndex, j);
        break;
      }
      assert !EndsMAttrs(trimmed);
      j := j + 1;
    }
  }

  /** The block whose first stop line is `j` runs through `j`. */
  lemma MAttrsStopsAt(startLine: string, lines: seq<string>, start: nat, j: nat)
    requires start < j < |lines| && j == FirstTrimmedFrom(lines, start + 1, EndsMAttrs)
    ensures MAttrsText(startLine, lines, start) == startLine + Continuation(lines, start + 1, j) + " " + Trim(lines[j])
  {
    assert MAttrsEnd(lines, start) == j + 1;
  }

  /** `parseComprehensiveMAttrs`: the attributes read from the collected block. */
  method ParseComprehensiveMAttrs(startLine: string, lines: seq<string>, startIndex: nat)
    returns (a: WindowAttributes)
    requires startIndex < |lines|
    ensures a.rawMAttrs == MAttrsText(startLine, lines, startIndex)
    ensures a == AttributesOf(MAttrsText(startLine, lines, startIndex))
  {
    var fullMAttrs := CollectMAttrs(startLine, lines, startIndex);
    a := AttributesOf(fullMAttrs);
  }

  /** The block takes the lines after its first one up to the first that ends it, that one included,
      and each of them contributes its trimmed text after one space. */
  lemma MAttrsTakesThroughStop(startLine: string, lines: seq<string>, start: nat, stop: nat)
    requires start < stop < |lines| && EndsMAttrs(Trim(lines[stop]))
    requires forall k :: start < k < stop ==> !EndsMAttrs(Trim(lines[k]))
    ensures MAttrsText(startLine, lines, start) == startLine + Continuation(lines, start + 1, stop) + " " + Trim(lines[stop])
  {
    var f := FirstTrimmedFrom(lines, start + 1, EndsMAttrs);
    assert f == stop;
  }

  // ----- The window body -----

  /** The variables of `parseWindow` that a body line sets, grouped by the `when` branch that sets
      them. The attribute group keeps the whole `mAttrs` block: its type, format, flag lists and
      system UI visibility are the window's own fields of those names. */
  datatype DisplayFields = DisplayFields(displayId: int, rootTaskId: int, session: string, client: string)
  datatype OwnerFields = OwnerFields(ownerUid: int, showForAllUsers: bool, packageName: string, appop: string)
  datatype RequestedSize = RequestedSize(width: int, height: int, layoutSeq: int)
  datatype SurfaceFields = SurfaceFields(hasSurface: bool, isReadyForDisplay: bool, windowRemovalAllowed: bool)
  datatype RotationFields = RotationFields(forceSeamlesslyRotate: bool, seamlesslyRotate: string)

  datatype WindowBody = WindowBody(display: DisplayFields, owner: OwnerFields, attrs: WindowAttributes,
                                   requested: RequestedSize, surface: SurfaceFields, animatorInfo: string,
                                   rotation: RotationFields, isOnScreen: bool, isVisible: bool,
                                   keepClearAreas: string, prepareSyncSeqId: int)

  /** The values `parseWindow` starts its variables with. */
  const EmptyWindowBody: WindowBody :=
    WindowBody(DisplayFields(0, -1, "", ""), OwnerFields(-1, false, "", ""), NoAttributes, RequestedSize(0, 0, 0),
               SurfaceFields(false, false, true), "", RotationFields(false, ""), false, false, "", 0)

  /** Which branch of the body `when` the trimmed line `line` at index `j` takes, with the values
      that branch reads from it. */
  datatype BodyField =
    | DisplayLine(display: DisplayFields)
    | OwnerLine(owner: OwnerFields)
    | AttrsLine(attrs: WindowAttributes)
    | RequestedLine(requested: RequestedSize)
    | SurfaceLine(surface: SurfaceFields)
    | AnimatorLine(animatorInfo: string)
    | RotationLine(rotation: RotationFields)
    | OnScreenLine(isOnScreen: bool)
    | VisibleLine(isVisible: bool)
    | KeepClearLine(keepClearAreas: string)
    | SyncSeqLine(prepareSyncSeqId: int)
    | OtherLine

  function BodyFieldOf(line: string, lines: seq<string>, j: nat): BodyField
    requires j < |lines|
  {
    if StartsWith(line, "mDisplayId=") then
      var parts := Split(line, " ");
      DisplayLine(DisplayFields(ExtractIntValue(parts, "mDisplayId"), ExtractIntValue(parts, "rootTaskId"),
                                ExtractStringValue(parts, "mSession"), ExtractStringValue(parts, "mClient")))
    else if StartsWith(line, "mOwnerUid=") then
      var parts := Split(line, " ");
      OwnerLine(OwnerFields(ExtractIntValue(parts, "mOwnerUid"), ExtractBooleanValue(parts, "showForAllUsers"),
                            ExtractStringValue(parts, "package"), ExtractStringValue(parts, "appop")))
    else if StartsWith(line, "mAttrs=") then AttrsLine(AttributesOf(MAttrsText(line, lines, j)))
    else if StartsWith(line, "Requested w=") then
      RequestedLine(RequestedSize(IntOr(FindGroup(KeyedRun("w=", Digit), line, 1), 0),
                                  IntOr(FindGroup(KeyedRun("h=", Digit), line, 1), 0),
                                  IntOr(FindGroup(KeyedRun("mLayoutSeq=", Digit), line, 1), 0)))
    else if StartsWith(line, "mHasSurface=") then
      SurfaceLine(SurfaceFields(Contains(line, "mHasSurface=true"), Contains(line, "isReadyForDisplay()=true"),
                                Contains(line, "mWindowRemovalAllowed=true")))
    else if StartsWith(line, "WindowStateAnimator{") then AnimatorLine(line)
    else if StartsWith(line, "mForceSeamlesslyRotate=") then
      RotationLine(RotationFields(Contains(line, "mForceSeamlesslyRotate=true"),
                                  SubstringAfter(line, "seamlesslyRotate: ")))
    else if StartsWith(line, "isOnScreen=") then OnScreenLine(Contains(line, "isOnScreen=true"))
    else if StartsWith(line, "isVisible=") then VisibleLine(Contains(line, "isVisible=true"))
    else if StartsWith(line, "keepClearAreas:") then KeepClearLine(SubstringAfter(line, "keepClearAreas: "))
    else if StartsWith(line, "mPrepareSyncSeqId=") then
      SyncSeqLine(IntOr(FindGroup(KeyedRun("mPrepareSyncSeqId=", Digit), line, 1), 0))
    else OtherLine
  }

  /** The assignment the branch makes: one group of variables, the others kept. */
  function BodyStep(b: WindowBody, f: BodyField): WindowBody
  {
    match f
    case DisplayLine(d) => b.(display := d)
    case OwnerLine(o) => b.(owner := o)
    case AttrsLine(a) => b.(attrs := a)
    case RequestedLine(q) => b.(requested := q)
    case SurfaceLine(sf) => b.(surface := sf)
    case AnimatorLine(t) => b.(animatorInfo := t)
    case RotationLine(rf) => b.(rotation := rf)
    case OnScreenLine(v) => b.(isOnScreen := v)
    case VisibleLine(v) => b.(isVisible := v)
    case KeepClearLine(t) => b.(keepClearAreas := t)
    case SyncSeqLine(n) => b.(prepareSyncSeqId := n)
    case OtherLine => b
  }

  /** The body read from the lines in `[from, hi)`. */
  function ScanBody(lines: seq<string>, from: nat, hi: nat): WindowBody
    requires hi <= |lines|
    decreases hi, 1
  {
    if hi <= from then EmptyWindowBody else BodyAfter(lines, from, hi - 1)
  }

  /** The body once line `k` has been read after the lines in `[from, k)`. */
  function BodyAfter(lines: seq<string>, from: nat, k: nat): WindowBody
    requires k < |lines|
    decreases k + 1, 0
  {
    BodyStep(ScanBody(lines, from, k), BodyFieldOf(Trim(lines[k]), lines, k))
  }

  /** One more body line is one more step. */
  lemma ScanBodyNext(lines: seq<string>, from: nat, j: nat)
    requires from <= j < |lines|
    ensures ScanBody(lines, from, j + 1) == BodyStep(ScanBody(lines, from, j), BodyFieldOf(Trim(lines[j]), lines, j))
  {
  }

  /** The body built from the lines before `j`, stepped with line `j`'s branch, is the body up to `j + 1`. */
  lemma ScanBodyGoesOn(lines: seq<string>, from: nat, j: nat, b: WindowBody, f: BodyField)
    requires from <= j < |lines| && b == ScanBody(lines, from, j) && f == BodyFieldOf(Trim(lines[j]), lines, j)
    ensures BodyStep(b, f) == ScanBody(lines, from, j + 1)
  {
  }

  /** The `WindowInfo` that `parseWindow` returns: the header's fields, the body's variables and the
      collected text after the header line. */
  function WindowOf(windowNumber: int, windowId: string, windowName: string, windowLine: string, b: WindowBody,
                    text: string): WindowInfo
  {
    WindowInfo(windowNumber, windowId, windowName, b.display.displayId, b.display.rootTaskId,
               b.display.session, b.display.client, b.owner.ownerUid, b.owner.showForAllUsers,
               b.owner.packageName, b.owner.appop, b.attrs.windowType, b.attrs.format, b.attrs.flags,
               b.attrs.privateFlags, b.attrs.systemUiVisibility, b.requested.width, b.requested.height,
               b.requested.layoutSeq, b.surface.hasSurface, b.surface.isReadyForDisplay,
               b.surface.windowRemovalAllowed, b.animatorInfo, b.rotation.forceSeamlesslyRotate,
               b.rotation.seamlesslyRotate, b.isOnScreen, b.isVisible, b.keepClearAreas, b.prepareSyncSeqId,
               windowLine + "\n" + text, b.attrs)
  }

  /** A window without body lines has every field at its declared default. */
  lemma EmptyBodyGivesDefaults(windowNumber: int, windowId: string, windowName: string, windowLine: string)
    ensures WindowOf(windowNumber, windowId, windowName, windowLine, EmptyWindowBody, "")
            == NewWindowInfo(windowNumber, windowId, windowName).(fullWindowInfo := windowLine + "\n")
  {
  }

  /** The window whose header `windowLine` is at `start`, or `None` when the header does not match. */
  function WindowAt(windowLine: string, lines: seq<string>, start: nat): (r: Option<WindowInfo>)
    requires start < |lines|
    ensures r.None? <==> Find(HeaderPattern, windowLine).None?
  {
    match Find(HeaderPattern, windowLine)
    case None => None
    case Some(m) =>
      var e := NextHeader(lines, start + 1);
      Some(WindowOf(IntOr(Some(GroupValue(m, 1)), -1), GroupValue(m, 2), GroupValue(m, 4), windowLine,
                    ScanBody(lines, start + 1, e), LinesText(lines, start + 1, e)))
  }

  /** One body line of `parseWindow`: the `when` over the trimmed line. */
  method ReadBodyLine(line: string, lines: seq<string>, j: nat) returns (f: BodyField)
    requires j < |lines| && line == Trim(lines[j])
    ensures f == BodyFieldOf(line, lines, j)
  {
    f := OtherLine;
    if StartsWith(line, "mDisplayId=") {
      var parts := Split(line, " ");
      f := DisplayLine(DisplayFields(ExtractIntValue(parts, "mDisplayId"), ExtractIntValue(parts, "rootTaskId"),
                                       ExtractStringValue(parts, "mSession"), ExtractStringValue(parts, "mClient")));
    } else if StartsWith(line, "mOwnerUid=") {
      var parts := Split(line, " ");
      f := OwnerLine(OwnerFields(ExtractIntValue(parts, "mOwnerUid"), ExtractBooleanValue(parts, "showForAllUsers"),
                                   ExtractStringValue(parts, "package"), ExtractStringValue(parts, "appop")));
    } else if StartsWith(line, "mAttrs=") {
      var a := ParseComprehensiveMAttrs(line, lines, j);
      f := AttrsLine(a);
    } else if StartsWith(line, "Requested w=") {
      f := RequestedLine(RequestedSize(IntOr(FindGroup(KeyedRun("w=", Digit), line, 1), 0),
                                         IntOr(FindGroup(KeyedRun("h=", Digit), line, 1), 0),
                                         IntOr(FindGroup(KeyedRun("mLayoutSeq=", Digit), line, 1), 0)));
    } else if StartsWith(line, "mHasSurface=") {
      f := SurfaceLine(SurfaceFields(Contains(line, "mHasSurface=true"), Contains(line, "isReadyForDisplay()=true"),
                                       Contains(line, "mWindowRemovalAllowed=true")));
    } else if StartsWith(line, "WindowStateAnimator{") {
      f := AnimatorLine(line);
    } else if StartsWith(line, "mForceSeamlesslyRotate=") {
      f := RotationLine(RotationFields(Contains(line, "mForceSeamlesslyRotate=true"),
                                         SubstringAfter(line, "seamlesslyRotate: ")));
    } else if StartsWith(line, "isOnScreen=") {
      f := OnScreenLine(Contains(line, "isOnScreen=true"));
    } else if StartsWith(line, "isVisible=") {
      f := VisibleLine(Contains(line, "isVisible=true"));
    } else if StartsWith(line, "keepClearAreas:") {
      f := KeepClearLine(SubstringAfter(line, "keepClearAreas: "));
    } else if StartsWith(line, "mPrepareSyncSeqId=") {
      f := SyncSeqLine(IntOr(FindGroup(KeyedRun("mPrepareSyncSeqId=", Digit), line, 1), 0));
    }
  }

  /** The fields and the text the body loop holds. */
  datatype BodyRead = BodyRead(body: WindowBody, text: string)

  /** What the body loop holds after reading the lines in `[from, j)`. */
  function ReadTo(lines: seq<string>, from: nat, j: nat): BodyRead
    requires j <= |lines|
  {
    BodyRead(ScanBody(lines, from, j), LinesText(lines, from, j))
  }

  /** One pass of the body loop: line `j` is added to the text and read for its field group. */
  method ReadBodyLineAt(lines: seq<string>, from: nat, j: nat, b: WindowBody, text: string)
    returns (b': WindowBody, text': string)
    requires from <= j < |lines| && BodyRead(b, text) == ReadTo(lines, from, j)
    ensures BodyRead(b', text') == ReadTo(lines, from, j + 1)
  {
    text' := text + lines[j] + "\n";
    var f := ReadBodyLine(Trim(lines[j]), lines, j);
    ScanBodyGoesOn(lines, from, j, b, f);
    b' := BodyStep(b, f);
  }

  /** The body loop of `parseWindow`: the lines after the header up to the next window header, each
      appended to the text with a line break and read for the field group it names. */
  method ReadWindowBody(lines: seq<string>, startIndex: nat) returns (b: WindowBody, text: string)
    requires startIndex < |lines|
    ensures BodyRead(b, text) == ReadTo(lines, startIndex + 1, NextHeader(lines, startIndex + 1))
  {
    b, text := EmptyWindowBody, "";
    var j := startIndex + 1;
    while j < |lines| && !IsWindowHeader(Trim(lines[j]))
      invariant startIndex + 1 <= j <= NextHeader(lines, startIndex + 1)
      invariant BodyRead(b, text) == ReadTo(lines, startIndex + 1, j)
    {
      BodyGoesOn(lines, startIndex + 1, j);
      b, text := ReadBodyLineAt(lines, startIndex + 1, j, b, text);
      j := j + 1;
    }
    HeaderEndsBody(lines, startIndex + 1, j);
  }

  /** A line before the next header that is not a header leaves the next header further on. */
  lemma BodyGoesOn(lines: seq<string>, from: nat, j: nat)
    requires from <= |lines| && from <= j <= NextHeader(lines, from) && j < |lines| && !IsWindowHeader(Trim(lines[j]))
    ensures j < NextHeader(lines, from)
  {
  }

  /** A header at or before the next header is the next header. */
  lemma HeaderEndsBody(lines: seq<string>, from: nat, j: nat)
    requires from <= |lines| && from <= j <= NextHeader(lines, from)
    requires j < |lines| ==> IsWindowHeader(Trim(lines[j]))
    ensures j == NextHeader(lines, from)
  {
  }

  /** `parseWindow`: the header fields, then the body lines up to the next window header. */
  method ParseWindow(windowLine: string, lines: seq<string>, startIndex: nat) returns (r: Option<WindowInfo>)
    requires startIndex < |lines|
    ensures r == WindowAt(windowLine, lines, startIndex)
  {
    var windowMatch := Find(HeaderPattern, windowLine);
    if windowMatch.None? {
      return None;
    }
    var m := windowMatch.value;
    var windowNumber := IntOr(Some(GroupValue(m, 1)), -1);
    var windowId := GroupValue(m, 2);
    var windowName := GroupValue(m, 4);
    var b, text := ReadWindowBody(lines, startIndex);
    r := Some(WindowOf(windowNumber, windowId, windowName, windowLine, b, text));
  }

  /** The lines `[from, hi)`, each followed by a line break, as `appendLine` adds them. */
  function LinesText(lines: seq<string>, from: nat, hi: nat): string
    requires hi <= |lines|
    decreases hi
  {
    if hi <= from then "" else LinesText(lines, from, hi - 1) + lines[hi - 1] + "\n"
  }

  // ----- Ordering -----

  predicate SortedByNumber(ws: seq<WindowInfo>)
  {
    forall i, j :: 0 <= i < j < |ws| ==> ws[i].windowNumber <= ws[j].windowNumber
  }

  /** Where `w` goes: before the first window whose number is not smaller, so that it stays ahead of
      the windows with its number that came after it. */
  function InsertPosition(w: WindowInfo, s: seq<WindowInfo>): (k: nat)
    ensures k <= |s|
    ensures forall i :: 0 <= i < k ==> s[i].windowNumber < w.windowNumber
    ensures k < |s| ==> w.windowNumber <= s[k].windowNumber
  {
    match FirstIndexFrom(s, 0, (y: WindowInfo) => w.windowNumber <= y.windowNumber)
    case Some(k) => k
    case None => |s|
  }

  lemma InsertKeepsSorted(w: WindowInfo, s: seq<WindowInfo>)
    ensures var k := InsertPosition(w, s); SortedByNumber(s) ==> SortedByNumber(s[..k] + [w] + s[k..])
  {
    if !SortedByNumber(s) {
      return;
    }
    var k := InsertPosition(w, s);
    var r := s[..k] + [w] + s[k..];
    forall i, j | 0 <= i < j < |r|
      ensures r[i].windowNumber <= r[j].windowNumber
    {
      if j < k || i > k {
        var i' := if i < k then i else i - 1;
        var j' := if j < k then j else j - 1;
        assert r[i] == s[i'] && r[j] == s[j'];
      } else if i < k {
        assert r[i] == s[i];
        assert r[j] == w || r[j] == s[j - 1];
      } else {
        assert r[j] == s[j - 1] && s[k].windowNumber <= s[j - 1].windowNumber;
      }
    }
  }

  /** `w` put in at its insertion position. */
  function Insert(w: WindowInfo, s: seq<WindowInfo>): (r: seq<WindowInfo>)
    ensures multiset(r) == multiset(s) + multiset{w}
    ensures SortedByNumber(s) ==> SortedByNumber(r)
  {
    var k := InsertPosition(w, s);
    InsertKeepsSorted(w, s);
    assert s == s[..k] + s[k..];
    s[..k] + [w] + s[k..]
  }

  /** Kotlin `sortedBy { it.windowNumber }`: a stable insertion sort; the result is ordered by window
      number and holds exactly the same windows. */
  function SortByNumber(ws: seq<WindowInfo>): (r: seq<WindowInfo>)
    ensures SortedByNumber(r)
    ensures multiset(r) == multiset(ws)
  {
    if |ws| == 0 then []
    else
      assert ws == [ws[0]] + ws[1..];
      Insert(ws[0], SortByNumber(ws[1..]))
  }

  /** The windows numbered `n`, in order. */
  function NumberedWindows(ws: seq<WindowInfo>, n: int): seq<WindowInfo>
  {
    Filter(ws, (w: WindowInfo) => w.windowNumber == n)
  }

  /** Inserting `w` puts it ahead of the windows that share its number. */
  lemma InsertNumberedWindows(w: WindowInfo, s: seq<WindowInfo>, n: int)
    ensures NumberedWindows(Insert(w, s), n) == NumberedWindows([w], n) + NumberedWindows(s, n)
  {
    var k := InsertPosition(w, s);
    FilterInsertAt(s, k, w, (v: WindowInfo) => v.windowNumber == n);
  }

  /** `sortedBy` is stable: the windows that share a number keep the order they came in. */
  lemma {:induction false} SortByNumberStable(ws: seq<WindowInfo>, n: int)
    ensures NumberedWindows(SortByNumber(ws), n) == NumberedWindows(ws, n)
    decreases |ws|
  {
    if |ws| > 0 {
      SortByNumberStable(ws[1..], n);
      InsertNumberedWindows(ws[0], SortByNumber(ws[1..]), n);
      FilterHead(ws, (v: WindowInfo) => v.windowNumber == n);
    }
  }

  // ----- The outer scan -----

  datatype ScanState = ScanState(windows: seq<WindowInfo>, currentFocus: string, focusedApp: string)

  datatype Cursor = Cursor(next: nat, st: ScanState)

  /** One turn of the outer loop at line `i`: a focus line records the text after its marker; a
      window header that matches adds the window and moves to the next header; any other line,
      a header that does not match included, moves one line on. */
  function Step(lines: seq<string>, i: nat, st: ScanState): (c: Cursor)
    requires i < |lines|
    ensures i < c.next <= |lines|
  {
    var line := Trim(lines[i]);
    if Contains(line, "mCurrentFocus=") then Cursor(i + 1, st.(currentFocus := SubstringAfter(line, "mCurrentFocus=")))
    else if Contains(line, "mFocusedApp=") then Cursor(i + 1, st.(focusedApp := SubstringAfter(line, "mFocusedApp=")))
    else if IsWindowHeader(line) then
      match WindowAt(line, lines, i)
      case Some(w) => Cursor(NextHeader(lines, i + 1), st.(windows := st.windows + [w]))
      case None => Cursor(i + 1, st)
    else Cursor(i + 1, st)
  }

  function ScanFrom(lines: seq<string>, i: nat, st: ScanState): (r: ScanState)
    decreases |lines| - i
  {
    if i >= |lines| then st
    else
      var c := Step(lines, i, st);
      ScanFrom(lines, c.next, c.st)
  }

  /** The result of `parseWindowDump` on `content`. */
  function WindowDumpOf(content: string): WindowDumpData
  {
    var st := ScanFrom(Split(content, "\n"), 0, ScanState([], "", ""));
    WindowDumpData(SortByNumber(st.windows), st.currentFocus, st.focusedApp)
  }

  /** `parseWindowDump`. */
  method ParseWindowDump(content: string) returns (data: WindowDumpData)
    ensures data == WindowDumpOf(content)
    ensures SortedByNumber(data.windows)
  {
    var lines := Split(content, "\n");
    var windows: seq<WindowInfo> := [];
    var currentFocus := "";
    var focusedApp := "";
    var i: nat := 0;
    while i < |lines|
      invariant i <= |lines|
      invariant ScanFrom(lines, i, ScanState(windows, currentFocus, focusedApp))
                == ScanFrom(lines, 0, ScanState([], "", ""))
      decreases |lines| - i
    {
      var line := Trim(lines[i]);
      ghost var c := Step(lines, i, ScanState(windows, currentFocus, focusedApp));
      if Contains(line, "mCurrentFocus=") {
        currentFocus := SubstringAfter(line, "mCurrentFocus=");
      } else if Contains(line, "mFocusedApp=") {
        focusedApp := SubstringAfter(line, "mFocusedApp=");
      } else if IsWindowHeader(line) {
        var windowInfo := ParseWindow(line, lines, i);
        if windowInfo.Some? {
          windows := windows + [windowInfo.value];
          var next := SkipToNextWindow(lines, i);
          i := next - 1;
        }
      }
      i := i + 1;
      assert i == c.next && ScanState(windows, currentFocus, focusedApp) == c.st;
    }
    data := WindowDumpData(SortByNumber(windows), currentFocus, focusedApp);
  }

  // ----- Properties of the scan -----

  /** A header line that does not match the header pattern adds no window and moves the cursor one
      line on; one that matches adds exactly its window and moves to the next header. */
  lemma HeaderStep(lines: seq<string>, i: nat, st: ScanState)
    requires i < |lines|
    requires var line := Trim(lines[i]);
             IsWindowHeader(line) && !Contains(line, "mCurrentFocus=") && !Contains(line, "mFocusedApp=")
    ensures var line := Trim(lines[i]);
            Find(HeaderPattern, line).None? ==> Step(lines, i, st) == Cursor(i + 1, st)
    ensures var line := Trim(lines[i]);
            Find(HeaderPattern, line).Some? ==>
              Step(lines, i, st) == Cursor(NextHeader(lines, i + 1),
                                           st.(windows := st.windows + [WindowAt(line, lines, i).value]))
  {
  }

  /** The scan only ever adds windows, and the windows it adds follow the ones it had. */
  lemma {:induction false} ScanKeepsWindows(lines: seq<string>, i: nat, st: ScanState)
    ensures |ScanFrom(lines, i, st).windows| >= |st.windows|
    ensures ScanFrom(lines, i, st).windows[..|st.windows|] == st.windows
    decreases |lines| - i
  {
    if i < |lines| {
      var c := Step(lines, i, st);
      ScanKeepsWindows(lines, c.next, c.st);
      assert c.st.windows[..|st.windows|] == st.windows;
    }
  }

  /** The focus fields take the text after their marker on the last focus line the scan visits:
      once the scan has parsed a window and no window header follows, it ends, so focus lines
      after the last parsed window are never read. */
  lemma FocusAfterLastWindowUnread(lines: seq<string>, i: nat, st: ScanState)
    requires i < |lines|
    requires var line := Trim(lines[i]);
             IsWindowHeader(line) && !Contains(line, "mCurrentFocus=") && !Contains(line, "mFocusedApp=")
             && Find(HeaderPattern, line).Some?
    requires NextHeader(lines, i + 1) == |lines|
    ensures ScanFrom(lines, i, st).currentFocus == st.currentFocus
    ensures ScanFrom(lines, i, st).focusedApp == st.focusedApp
    ensures |ScanFrom(lines, i, st).windows| == |st.windows| + 1
  {
    HeaderStep(lines, i, st);
  }

  /** Focus lines alone: the later line wins. */
  lemma LaterFocusWins(lines: seq<string>, i: nat, st: ScanState)
    requires i + 1 < |lines|
    requires Contains(Trim(lines[i]), "mCurrentFocus=") && Contains(Trim(lines[i + 1]), "mCurrentFocus=")
    ensures Step(lines, i + 1, Step(lines, i, st).st).st.currentFocus
            == SubstringAfter(Trim(lines[i + 1]), "mCurrentFocus=")
  {
  }

}
