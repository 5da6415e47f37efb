/** The records an activity dump is rebuilt into (display, task, activity), and the scores a task
    is ranked by. */
module ActivityDumpModel {
  import opened Text

  /** One `Hist #n: ActivityRecord{...}` entry. The parser fills the first ten fields; the rest keep
      their defaults. */
  datatype ActivityRecord = ActivityRecord(
    recordId: string,
    historyIndex: int,
    userId: int,
    packageName: string,
    activityName: string,
    taskId: int,
    intent: string,
    processRecord: string,
    pid: int,
    processName: string,
    uid: int,
    state: string,
    visible: bool,
    focused: bool,
    resumed: bool,
    paused: bool,
    stopped: bool,
    finishing: bool)

  /** An activity record with the defaults of every field the parser does not set. */
  function NewActivityRecord(recordId: string, historyIndex: int, userId: int, packageName: string,
                             activityName: string, taskId: int, intent: string, processRecord: string,
                             pid: int, processName: string): (a: ActivityRecord)
    ensures a.uid == -1 && a.state == ""
    ensures !a.visible && !a.focused && !a.resumed && !a.paused && !a.stopped && !a.finishing
    ensures a.recordId == recordId && a.pid == pid && a.processName == processName
  {
    ActivityRecord(recordId, historyIndex, userId, packageName, activityName, taskId, intent,
                   processRecord, pid, processName, -1, "", false, false, false, false, false, false)
  }

  /** A `* Task{...}` entry; `taskType` is the dump's `type=` field. */
  datatype TaskInfo = TaskInfo(
    taskId: string,
    taskNumber: int,
    taskType: string,
    affinity: string,
    userId: int,
    visible: bool,
    visibleRequested: bool,
    mode: string,
    translucent: bool,
    size: int,
    bounds: string,
    lastNonFullscreenBounds: string,
    isSleeping: bool,
    topResumedActivity: string,
    rootTaskId: int,
    activities: seq<ActivityRecord>)

  datatype DisplayInfo = DisplayInfo(displayId: int, tasks: seq<TaskInfo>)

  datatype ActivityDumpData = ActivityDumpData(displays: seq<DisplayInfo>, resumedActivities: seq<string>)

  /** Kotlin's `/` on Int: the quotient rounded toward zero. */
  function TruncDiv(a: int, b: int): (q: int)
    requires b > 0
    ensures a >= 0 ==> q == a / b
    ensures a < 0 ==> q == -((-a) / b)
  {
    if a >= 0 then a / b else -((-a) / b)
  }

  /** For the default task number -1 the two divisions differ: Kotlin gives 0, Dafny's `/` gives -1. */
  lemma TruncDivOfMinusOne()
    ensures TruncDiv(-1, 1000) == 0 && -1 / 1000 == -1
  {
  }

  /** Truncating division is symmetric around zero, which Euclidean division is not. */
  lemma TruncDivOdd(a: int, b: int)
    requires b > 0
    ensures TruncDiv(-a, b) == -TruncDiv(a, b)
  {
  }

  /** `activities.count { it.resumed }`. */
  function CountResumed(acts: seq<ActivityRecord>): (n: nat)
    ensures n <= |acts|
    ensures n == 0 <==> forall k :: 0 <= k < |acts| ==> !acts[k].resumed
  {
    if |acts| == 0 then 0
    else CountResumed(acts[..|acts| - 1]) + (if acts[|acts| - 1].resumed then 1 else 0)
  }

  /** The placement term: exactly one of 1000, 800, 600 or 0. */
  function PlacementScore(t: TaskInfo): int
  {
    if t.visible && |t.topResumedActivity| > 0 then 1000
    else if t.visible then 800
    else if t.visibleRequested then 600
    else 0
  }

  /** A task's priority as the sum of its terms. */
  function Priority(t: TaskInfo): int
  {
    PlacementScore(t)
    + (if !t.isSleeping && |t.activities| > 0 then 400 else 0)
    + 100 * CountResumed(t.activities)
    + (if t.taskType == "home" then 50 else 0)
    + (if !t.translucent then 10 else 0)
    - TruncDiv(t.taskNumber, 1000)
  }

  /** `TaskInfo.calculatePriority`: the terms added one after the other into `priority`. */
  method CalculatePriority(t: TaskInfo) returns (priority: int)
    ensures priority == Priority(t)
  {
    priority := 0;
    if t.visible && |t.topResumedActivity| > 0 {
      priority := priority + 1000;
    } else if t.visible {
      priority := priority + 800;
    } else if t.visibleRequested {
      priority := priority + 600;
    }
    if !t.isSleeping && |t.activities| > 0 {
      priority := priority + 400;
    }
    var resumed := CountResumed(t.activities);
    priority := priority + resumed * 100;
    if t.taskType == "home" {
      priority := priority + 50;
    }
    if !t.translucent {
      priority := priority + 10;
    }
    priority := priority - TruncDiv(t.taskNumber, 1000);
  }

  /** The placement term takes each of its four values in exactly one situation. */
  lemma PlacementCases(t: TaskInfo)
    ensures PlacementScore(t) == 1000 <==> t.visible && t.topResumedActivity != ""
    ensures PlacementScore(t) == 800 <==> t.visible && t.topResumedActivity == ""
    ensures PlacementScore(t) == 600 <==> !t.visible && t.visibleRequested
    ensures PlacementScore(t) == 0 <==> !t.visible && !t.visibleRequested
  {
  }

  /** The other terms: 400 for an awake task with activities, 100 per resumed activity, 50 for a home
      task, 10 for an opaque one, and its task number in thousands taken off. */
  lemma PriorityTerms(t: TaskInfo)
    ensures Priority(t) - PlacementScore(t) + TruncDiv(t.taskNumber, 1000)
         == (if !t.isSleeping && t.activities != [] then 400 else 0)
          + 100 * CountResumed(t.activities)
          + (if t.taskType == "home" then 50 else 0)
          + (if t.translucent then 0 else 10)
  {
  }

  /** With everything else equal, a visible task with a top resumed activity outranks a visible task
      without one, which outranks a hidden task that asked to become visible. */
  lemma PlacementOrdersPriority(t: TaskInfo, top: string)
    requires top != ""
    ensures var fg := t.(visible := true, topResumedActivity := top);
            var vis := t.(visible := true, topResumedActivity := "");
            var req := t.(visible := false, visibleRequested := true, topResumedActivity := "");
            Priority(fg) > Priority(vis) > Priority(req)
  {
  }

  /** `isForeground`. */
  predicate IsForeground(t: TaskInfo)
  {
    t.visible && |t.topResumedActivity| > 0
  }

  /** `isBackgroundActive`. */
  predicate IsBackgroundActive(t: TaskInfo)
  {
    !t.visible && |t.activities| > 0 && !t.isSleeping
  }

  /** A foreground task is visible and gets the top placement score; no task is both foreground and
      background-active. */
  lemma ForegroundAndBackground(t: TaskInfo)
    ensures IsForeground(t) ==> t.visible && PlacementScore(t) == 1000
    ensures IsForeground(t) <==> PlacementScore(t) == 1000
    ensures !(IsForeground(t) && IsBackgroundActive(t))
    ensures IsBackgroundActive(t) ==> PlacementScore(t) <= 600
  {
  }
}
