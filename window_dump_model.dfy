/** The records a window dump is rebuilt into, and the focus information read from the
    `mCurrentFocus=` and `mFocusedApp=` lines. */
module WindowDumpModel {
  import opened Text
  import opened Patterns

  /** The fields read from a window's `mAttrs={...}` block. */
  datatype WindowAttributes = WindowAttributes(
    position: string,
    gravity: string,
    softInputMode: string,
    layoutInDisplayCutoutMode: string,
    windowType: string,
    format: string,
    flags: seq<string>,
    privateFlags: seq<string>,
    systemUiVisibility: string,
    behavior: string,
    rawMAttrs: string)

  /** `WindowAttributes()`: every field empty. */
  const NoAttributes: WindowAttributes := WindowAttributes("", "", "", "", "", "", [], [], "", "", "")

  /** One `Window #n Window{...}:` entry. The three alpha values of the source are floating point
      and are not part of this model. */
  datatype WindowInfo = WindowInfo(
    windowNumber: int,
    windowId: string,
    windowName: string,
    displayId: int,
    rootTaskId: int,
    session: string,
    client: string,
    ownerUid: int,
    showForAllUsers: bool,
    packageName: string,
    appop: string,
    windowType: string,
    format: string,
    flags: seq<string>,
    privateFlags: seq<string>,
    systemUiVisibility: string,
    requestedWidth: int,
    requestedHeight: int,
    layoutSeq: int,
    hasSurface: bool,
    isReadyForDisplay: bool,
    windowRemovalAllowed: bool,
    animatorInfo: string,
    forceSeamlesslyRotate: bool,
    seamlesslyRotate: string,
    isOnScreen: bool,
    isVisible: bool,
    keepClearAreas: string,
    prepareSyncSeqId: int,
    fullWindowInfo: string,
    mAttrs: WindowAttributes)

  /** A window with only its header fields given and every other field at its declared default. */
  function NewWindowInfo(windowNumber: int, windowId: string, windowName: string): (w: WindowInfo)
    ensures w.windowNumber == windowNumber && w.windowId == windowId && w.windowName == windowName
    ensures w.displayId == 0 && w.rootTaskId == -1 && w.ownerUid == -1 && w.windowRemovalAllowed
    ensures w.session == "" && w.client == "" && !w.showForAllUsers && w.packageName == ""
    ensures w.flags == [] && w.privateFlags == [] && w.mAttrs == NoAttributes
    ensures w.requestedWidth == 0 && w.requestedHeight == 0 && w.layoutSeq == 0 && w.prepareSyncSeqId == 0
    ensures !w.hasSurface && !w.isReadyForDisplay && !w.isOnScreen && !w.isVisible && !w.forceSeamlesslyRotate
  {
    WindowInfo(windowNumber, windowId, windowName, 0, -1, "", "", -1, false, "", "", "", "", [], [], "",
               0, 0, 0, false, false, true, "", false, "", false, false, "", 0, "", NoAttributes)
  }

  datatype WindowDumpData = WindowDumpData(windows: seq<WindowInfo>, currentFocus: string, focusedApp: string)

  datatype FocusInfo = FocusInfo(currentFocus: string, focusedApp: string, extractedPackageName: string,
                                 extractedActivityName: string)

  /** `Window\{[^}]+ u\d+ ([^/]+)/` and `ActivityRecord\{[^}]+ u\d+ ([^/]+)/`: the package after the
      user id inside a `Window{...}` or `ActivityRecord{...}` reference. */
  function PackagePattern(opener: string): Pattern
  {
    [ Lit(opener), Plus(Not(Chars("}"))), Lit(" u"), Plus(Digit), Lit(" "),
      Group(1, [Plus(Not(Chars("/")))]), Lit("/") ]
  }

  /** `/([^}]+)\s+t\d+}`: the activity between the `/` and a task number. */
  const ActivityPattern: Pattern :=
    [ Lit("/"), Group(1, [Plus(Not(Chars("}")))]), Plus(Space), Lit("t"), Plus(Digit), Lit("}") ]

  /** `extractPackageFromFocus`: from the focused window if its reference matches, otherwise from the
      focused app, otherwise "". */
  function ExtractPackageFromFocus(currentFocus: string, focusedApp: string): (p: string)
  {
    match FindGroup(PackagePattern("Window{"), currentFocus, 1)
    case Some(g) => g
    case None =>
      match FindGroup(PackagePattern("ActivityRecord{"), focusedApp, 1)
      case Some(g) => g
      case None => ""
  }

  /** `extractActivityFromFocus`: only the focused app is consulted. */
  function ExtractActivityFromFocus(focusedApp: string): (a: string)
  {
    StringOr(FindGroup(ActivityPattern, focusedApp, 1), "")
  }

  /** `FocusInfo.extractFromFocusInfo`: both inputs are kept as they are, with the package and the
      activity read from them. */
  function ExtractFromFocusInfo(currentFocus: string, focusedApp: string): (f: FocusInfo)
    ensures f.currentFocus == currentFocus && f.focusedApp == focusedApp
    ensures f.extractedActivityName == ExtractActivityFromFocus(focusedApp)
    ensures f.extractedPackageName == ExtractPackageFromFocus(currentFocus, focusedApp)
  {
    FocusInfo(currentFocus, focusedApp, ExtractPackageFromFocus(currentFocus, focusedApp),
              ExtractActivityFromFocus(focusedApp))
  }

  /** The package comes from the focused window whenever that reference matches; the focused app is
      consulted only when it does not. A focus text without `Window{` can never match, so then the
      package is whatever the focused app gives, and it is "" when neither text has its opener. */
  lemma PackageSource(currentFocus: string, focusedApp: string)
    ensures FindGroup(PackagePattern("Window{"), currentFocus, 1).Some? ==>
              ExtractPackageFromFocus(currentFocus, focusedApp)
              == FindGroup(PackagePattern("Window{"), currentFocus, 1).value
    ensures !Contains(currentFocus, "Window{") ==>
              ExtractPackageFromFocus(currentFocus, focusedApp) == ExtractPackageFromFocus("", focusedApp)
    ensures !Contains(currentFocus, "Window{") && !Contains(focusedApp, "ActivityRecord{") ==>
              ExtractPackageFromFocus(currentFocus, focusedApp) == ""
  {
    var fp := PackagePattern("Window{");
    var ap := PackagePattern("ActivityRecord{");
    assert fp == [Lit("Window{")] + fp[1..];
    assert ap == [Lit("ActivityRecord{")] + ap[1..];
    if !Contains(currentFocus, "Window{") {
      FindWithoutLit("Window{", fp[1..], currentFocus);
      FindWithoutLit("Window{", fp[1..], "");
    }
    if !Contains(focusedApp, "ActivityRecord{") {
      FindWithoutLit("ActivityRecord{", ap[1..], focusedApp);
    }
  }

  /** The activity name is "" for a focused app without a `/`, whatever the focused window says. */
  lemma ActivityNeedsSlash(currentFocus: string, focusedApp: string)
    requires !Contains(focusedApp, "/")
    ensures ExtractFromFocusInfo(currentFocus, focusedApp).extractedActivityName == ""
  {
    assert ActivityPattern == [Lit("/")] + ActivityPattern[1..];
    FindWithoutLit("/", ActivityPattern[1..], focusedApp);
  }
}
