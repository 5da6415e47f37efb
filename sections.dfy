/** `Sections`: the loop shape every section scanner of the parsers shares. A `for` loop over the
    lines keeps an `inSection` flag: a start line sets it, and inside the section an end line breaks
    the loop, either before or after the line is read. The loop's variables after `n` lines are one
    fold, `SectionOf`, and the fold is proved equal to a direct description, `SectionItems`. */
module Sections {
  import opened Text

  /** What a section loop of the parser does with a line: a `start` line opens the section and is not
      read further; inside the section a `stopBefore` line ends the loop before it is read, and any
      other line adds `emit(line)` and then ends the loop when it is a `stopAfter` line. */
  datatype Section<T> = Section(start: string -> bool, stopBefore: string -> bool, emit: string -> seq<T>,
                                stopAfter: string -> bool)

  datatype SectionScan<T> = SectionScan(items: seq<T>, inSection: bool, done: bool)

  function SectionStep<T>(sec: Section<T>, st: SectionScan<T>, line: string): SectionScan<T>
  {
    if st.done then st
    else if sec.start(line) then st.(inSection := true)
    else if !st.inSection then st
    else if sec.stopBefore(line) then st.(done := true)
    else SectionScan(st.items + sec.emit(line), true, sec.stopAfter(line))
  }

  /** The loop's variables after the first `n` lines. */
  function SectionOf<T>(sec: Section<T>, lines: seq<string>, n: nat): SectionScan<T>
    requires n <= |lines|
  {
    if n == 0 then SectionScan([], false, false) else SectionStep(sec, SectionOf(sec, lines, n - 1), lines[n - 1])
  }

  /** Once the loop has stopped, later lines change nothing. */
  lemma {:induction false} DoneStays<T>(sec: Section<T>, lines: seq<string>, n: nat, m: nat)
    requires n <= m <= |lines| && SectionOf(sec, lines, n).done
    ensures SectionOf(sec, lines, m) == SectionOf(sec, lines, n)
    decreases m
  {
    if m > n {
      DoneStays(sec, lines, n, m - 1);
    }
  }

  /** A line that ends an open section. */
  predicate Ends<T>(sec: Section<T>, line: string)
  {
    !sec.start(line) && (sec.stopBefore(line) || sec.stopAfter(line))
  }

  /** The line that ends a section opened at `m`, or `|lines|` when none does. */
  function SectionEnd<T>(sec: Section<T>, lines: seq<string>, m: nat): (e: nat)
    requires m < |lines|
    ensures m < e <= |lines|
    ensures forall k :: m < k < e ==> !Ends(sec, lines[k])
    ensures e < |lines| ==> Ends(sec, lines[e])
  {
    match FirstIndexFrom(lines, m + 1, (l: string) => Ends(sec, l))
    case Some(e) => e
    case None => |lines|
  }

  /** What the lines in `[lo, hi)` other than `start` lines emit, in order. */
  function EmitIn<T>(sec: Section<T>, lines: seq<string>, lo: nat, hi: nat): seq<T>
    requires lo <= hi <= |lines|
    decreases hi - lo
  {
    if hi == lo then []
    else EmitIn(sec, lines, lo, hi - 1) + (if sec.start(lines[hi - 1]) then [] else sec.emit(lines[hi - 1]))
  }

  /** What the ending line adds: its own items when it is read before the loop stops. */
  function EndContribution<T>(sec: Section<T>, lines: seq<string>, e: nat): seq<T>
    requires e <= |lines|
  {
    if e < |lines| && !sec.stopBefore(lines[e]) then sec.emit(lines[e]) else []
  }

  /** The section described directly: nothing without a `start` line; otherwise what the lines after
      the first `start` line emit up to the ending line, and what the ending line adds. */
  function SectionItems<T>(sec: Section<T>, lines: seq<string>): seq<T>
  {
    match FirstIndexFrom(lines, 0, sec.start)
    case None => []
    case Some(m) =>
      var e := SectionEnd(sec, lines, m);
      EmitIn(sec, lines, m + 1, e) + EndContribution(sec, lines, e)
  }

  /** The loop's variables after `n` lines, described directly. */
  lemma {:induction false} SectionOfState<T>(sec: Section<T>, lines: seq<string>, n: nat)
    requires n <= |lines|
    ensures var st := SectionOf(sec, lines, n);
            match FirstIndexFrom(lines, 0, sec.start)
            case None => st == SectionScan([], false, false)
            case Some(m) =>
              if n <= m then st == SectionScan([], false, false)
              else if n <= SectionEnd(sec, lines, m) then st == SectionScan(EmitIn(sec, lines, m + 1, n), true, false)
              else st == SectionScan(EmitIn(sec, lines, m + 1, SectionEnd(sec, lines, m))
                                     + EndContribution(sec, lines, SectionEnd(sec, lines, m)), true, true)
  {
    if n > 0 {
      SectionOfState(sec, lines, n - 1);
      var f := FirstIndexFrom(lines, 0, sec.start);
      if f.Some? {
        var m := f.value;
        var e := SectionEnd(sec, lines, m);
        if n - 1 < m {
          assert !sec.start(lines[n - 1]);
        } else if n - 1 == m {
          assert EmitIn(sec, lines, m + 1, n) == [];
        } else if n - 1 < e {
          assert !Ends(sec, lines[n - 1]);
        } else if n - 1 == e {
          assert Ends(sec, lines[n - 1]);
        }
      }
    }
  }

  /** The loop and the direct description agree. */
  lemma SectionSpec<T>(sec: Section<T>, lines: seq<string>)
    ensures SectionOf(sec, lines, |lines|).items == SectionItems(sec, lines)
  {
    SectionOfState(sec, lines, |lines|);
  }

  /** Every item comes from a line of the input. */
  lemma {:induction false} ItemsComeFromLines<T>(sec: Section<T>, lines: seq<string>, n: nat)
    requires n <= |lines|
    ensures forall x :: x in SectionOf(sec, lines, n).items ==> exists k :: 0 <= k < n && x in sec.emit(lines[k])
  {
    if n > 0 {
      ItemsComeFromLines(sec, lines, n - 1);
      var prev := SectionOf(sec, lines, n - 1);
      forall x | x in SectionOf(sec, lines, n).items
        ensures exists k :: 0 <= k < n && x in sec.emit(lines[k])
      {
        if x !in prev.items {
          assert x in sec.emit(lines[n - 1]);
        }
      }
    }
  }

  /** Every item of `EmitIn` comes from a line in `[lo, hi)` that is not a `start` line. */
  lemma {:induction false} EmitInFrom<T>(sec: Section<T>, lines: seq<string>, lo: nat, hi: nat)
    requires lo <= hi <= |lines|
    ensures forall x :: x in EmitIn(sec, lines, lo, hi) ==>
              exists k :: lo <= k < hi && !sec.start(lines[k]) && x in sec.emit(lines[k])
    decreases hi - lo
  {
    if hi > lo {
      EmitInFrom(sec, lines, lo, hi - 1);
      forall x | x in EmitIn(sec, lines, lo, hi)
        ensures exists k :: lo <= k < hi && !sec.start(lines[k]) && x in sec.emit(lines[k])
      {
        if x !in EmitIn(sec, lines, lo, hi - 1) {
          assert !sec.start(lines[hi - 1]) && x in sec.emit(lines[hi - 1]);
        }
      }
    }
  }

  /** A section that never stops after a line: its items are what the lines strictly between the
      opening line and the ending line emit, and the ending line is a `stopBefore` line. */
  lemma SectionStopsBefore<T>(sec: Section<T>, lines: seq<string>)
    requires forall l :: !sec.stopAfter(l)
    ensures var h := SectionOf(sec, lines, |lines|).items;
            match FirstIndexFrom(lines, 0, sec.start)
            case None => h == []
            case Some(m) =>
              var e := SectionEnd(sec, lines, m);
              && h == EmitIn(sec, lines, m + 1, e)
              && (forall k :: m < k < e ==> sec.start(lines[k]) || !sec.stopBefore(lines[k]))
              && (e < |lines| ==> !sec.start(lines[e]) && sec.stopBefore(lines[e]))
  {
    SectionSpec(sec, lines);
    var f := FirstIndexFrom(lines, 0, sec.start);
    if f.Some? {
      var m := f.value;
      var e := SectionEnd(sec, lines, m);
      forall k | m < k < e
        ensures sec.start(lines[k]) || !sec.stopBefore(lines[k])
      {
        assert !Ends(sec, lines[k]);
      }
      if e < |lines| {
        assert Ends(sec, lines[e]);
      }
      assert EndContribution(sec, lines, e) == [];
      assert EmitIn(sec, lines, m + 1, e) + [] == EmitIn(sec, lines, m + 1, e);
    }
  }

  /** In such a section, each item comes from a line strictly between the opening and the ending
      line that is not a `start` line. */
  lemma SectionItemsFrom<T>(sec: Section<T>, lines: seq<string>, m: nat)
    requires forall l :: !sec.stopAfter(l)
    requires FirstIndexFrom(lines, 0, sec.start) == Some(m)
    ensures forall x :: x in SectionOf(sec, lines, |lines|).items ==>
              exists k :: m < k < SectionEnd(sec, lines, m) && !sec.start(lines[k]) && x in sec.emit(lines[k])
  {
    SectionStopsBefore(sec, lines);
    EmitInFrom(sec, lines, m + 1, SectionEnd(sec, lines, m));
  }
}
