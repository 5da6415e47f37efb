/** Kotlin's String operations as the dump parsers use them. Strings are sequences of characters,
    a dump is split into a sequence of lines, and every lookup that Kotlin answers with `null`
    answers here with `None`. */
module Text {

  datatype Option<T> = None | Some(value: T)

  const INT_MIN: int := -0x8000_0000
  const INT_MAX: int := 0x7FFF_FFFF
  const LONG_MIN: int := -0x8000_0000_0000_0000
  const LONG_MAX: int := 0x7FFF_FFFF_FFFF_FFFF

  /** Kotlin `Char.isWhitespace` on the JVM: Java's `isWhitespace` or `isSpaceChar`. */
  predicate IsWhitespace(c: char)
  {
    || c == ' ' || c == '\t' || c == '\n' || c == '\U{B}' || c == '\U{C}' || c == '\r'
    || ('\U{1C}' <= c <= '\U{1F}')
    || c == '\U{A0}' || c == '\U{1680}' || ('\U{2000}' <= c <= '\U{200A}')
    || c == '\U{2028}' || c == '\U{2029}' || c == '\U{202F}' || c == '\U{205F}' || c == '\U{3000}'
  }

  /** `\s` in a Java regular expression compiled without flags. */
  predicate IsRegexSpace(c: char)
  {
    c == ' ' || c == '\t' || c == '\n' || c == '\U{B}' || c == '\U{C}' || c == '\r'
  }

  /** A character that `.` in a Java regular expression does not match. */
  predicate IsLineTerminator(c: char)
  {
    c == '\n' || c == '\r' || c == '\U{85}' || c == '\U{2028}' || c == '\U{2029}'
  }

  predicate IsDigit(c: char) { '0' <= c <= '9' }

  /** `\w` in a Java regular expression. */
  predicate IsWordChar(c: char)
  {
    ('a' <= c <= 'z') || ('A' <= c <= 'Z') || IsDigit(c) || c == '_'
  }

  lemma RegexSpaceIsWhitespace(c: char)
    ensures IsRegexSpace(c) ==> IsWhitespace(c)
  {
  }

  predicate StartsWith(s: string, p: string)
  {
    |p| <= |s| && s[..|p|] == p
  }

  predicate EndsWith(s: string, p: string)
  {
    |p| <= |s| && s[|s| - |p|..] == p
  }

  /** `p` occurs in `s` starting at index `i`. */
  predicate OccursAt(s: string, p: string, i: nat)
  {
    i + |p| <= |s| && s[i..i + |p|] == p
  }

  /** The first index at or after `from` where `p` occurs in `s`. */
  function IndexOfFrom(s: string, p: string, from: nat): (r: Option<nat>)
    ensures r.Some? ==> from <= r.value && OccursAt(s, p, r.value)
    ensures forall j :: from <= j && (r.None? || j < r.value) ==> !OccursAt(s, p, j)
    decreases |s| - from
  {
    if from + |p| > |s| then None
    else if s[from..from + |p|] == p then Some(from)
    else IndexOfFrom(s, p, from + 1)
  }

  /** Kotlin `indexOf(p)`, with `None` for -1. */
  function IndexOf(s: string, p: string): Option<nat>
  {
    IndexOfFrom(s, p, 0)
  }

  /** Kotlin `contains(p)`. */
  predicate Contains(s: string, p: string)
  {
    IndexOf(s, p).Some?
  }

  lemma ContainsIff(s: string, p: string)
    ensures Contains(s, p) <==> exists j: nat :: OccursAt(s, p, j)
  {
    if Contains(s, p) {
      assert OccursAt(s, p, IndexOf(s, p).value);
    }
  }

  lemma StartsWithContains(s: string, p: string)
    requires StartsWith(s, p)
    ensures Contains(s, p)
  {
    assert OccursAt(s, p, 0);
  }

  /** Kotlin `substringAfter(d)`: the text after the first `d`, or the whole string when `d` is absent. */
  function SubstringAfter(s: string, d: string): string
  {
    match IndexOf(s, d)
    case Some(i) => s[i + |d|..]
    case None => s
  }

  /** Kotlin `substringAfter(d, missing)`. */
  function SubstringAfterOr(s: string, d: string, missing: string): string
  {
    match IndexOf(s, d)
    case Some(i) => s[i + |d|..]
    case None => missing
  }

  /** Kotlin `substringBefore(d)`: the text before the first `d`, or the whole string when `d` is absent. */
  function SubstringBefore(s: string, d: string): string
  {
    match IndexOf(s, d)
    case Some(i) => s[..i]
    case None => s
  }

  /** After a prefix `p`, `substringAfter(p)` is the rest of the line. */
  lemma SubstringAfterPrefix(s: string, p: string)
    requires StartsWith(s, p)
    ensures SubstringAfter(s, p) == s[|p|..]
  {
    assert OccursAt(s, p, 0);
  }

  /** Cutting at the first delimiter loses nothing, and when the delimiter is absent both halves are `s`. */
  lemma SubstringAroundDelimiter(s: string, d: string)
    ensures Contains(s, d) ==> SubstringBefore(s, d) + d + SubstringAfter(s, d) == s
    ensures |d| > 0 && Contains(s, d) ==> !Contains(SubstringBefore(s, d), d)
    ensures !Contains(s, d) ==> SubstringBefore(s, d) == s && SubstringAfter(s, d) == s
  {
    if Contains(s, d) {
      var i := IndexOf(s, d).value;
      assert s[..i] + d + s[i + |d|..] == s by {
        assert s[i..i + |d|] == d;
        assert s == s[..i] + s[i..i + |d|] + s[i + |d|..];
      }
      if |d| > 0 {
        NoEarlierOccurrence(s, d, i);
      }
    }
  }

  /** A prefix of `s` that ends before the first occurrence of `d` does not contain `d`. */
  lemma NoEarlierOccurrence(s: string, d: string, i: nat)
    requires |d| > 0 && i <= |s|
    requires forall j :: 0 <= j < i ==> !OccursAt(s, d, j)
    ensures !Contains(s[..i], d)
  {
    if Contains(s[..i], d) {
      var j := IndexOf(s[..i], d).value;
      assert s[..i][j..j + |d|] == s[j..j + |d|];
      assert j < i && OccursAt(s, d, j);
    }
  }

  /** Kotlin `trimStart()`. */
  function TrimStart(s: string): (r: string)
    ensures |r| <= |s|
  {
    if |s| > 0 && IsWhitespace(s[0]) then TrimStart(s[1..]) else s
  }

  /** `trimStart()` drops the leading whitespace and keeps the rest as it is. */
  lemma {:induction false} TrimStartSpec(s: string)
    ensures TrimStart(s) == s[|s| - |TrimStart(s)|..]
    ensures TrimStart(s) == [] || !IsWhitespace(TrimStart(s)[0])
    ensures forall k :: 0 <= k < |s| - |TrimStart(s)| ==> IsWhitespace(s[k])
  {
    if |s| > 0 && IsWhitespace(s[0]) {
      TrimStartSpec(s[1..]);
      assert forall k :: 1 <= k < |s| ==> s[k] == s[1..][k - 1];
    }
  }

  /** Kotlin `trimEnd()`. */
  function TrimEnd(s: string): (r: string)
    ensures |r| <= |s|
  {
    if |s| > 0 && IsWhitespace(s[|s| - 1]) then TrimEnd(s[..|s| - 1]) else s
  }

  /** `trimEnd()` drops the trailing whitespace and keeps the rest as it is. */
  lemma {:induction false} TrimEndSpec(s: string)
    ensures TrimEnd(s) == s[..|TrimEnd(s)|]
    ensures TrimEnd(s) == [] || !IsWhitespace(TrimEnd(s)[|TrimEnd(s)| - 1])
    ensures forall k :: |TrimEnd(s)| <= k < |s| ==> IsWhitespace(s[k])
  {
    if |s| > 0 && IsWhitespace(s[|s| - 1]) {
      TrimEndSpec(s[..|s| - 1]);
    }
  }

  /** Kotlin `trim()`. */
  function Trim(s: string): string
  {
    TrimEnd(TrimStart(s))
  }

  /** Kotlin `isBlank()`: empty or whitespace only. */
  predicate IsBlank(s: string)
  {
    forall k :: 0 <= k < |s| ==> IsWhitespace(s[k])
  }

  /** `trim()` keeps the slice of `s` between the whitespace it drops at both ends, and what it
      keeps neither starts nor ends with whitespace. */
  lemma TrimBounds(s: string)
    ensures var a := |s| - |TrimStart(s)|; a + |Trim(s)| <= |s| && Trim(s) == s[a..a + |Trim(s)|]
    ensures Trim(s) == [] || (!IsWhitespace(Trim(s)[0]) && !IsWhitespace(Trim(s)[|Trim(s)| - 1]))
  {
    var t := TrimStart(s);
    var r := TrimEnd(t);
    var a := |s| - |t|;
    TrimStartSpec(s);
    TrimEndSpec(t);
    assert r == t[..|r|];
    assert t == s[a..];
    assert r == s[a..a + |r|];
    if r != [] {
      assert r[0] == t[0];
    }
  }

  /** `trim()` keeps nothing exactly when `s` is blank. */
  lemma BlankIffTrimEmpty(s: string)
    ensures IsBlank(s) <==> Trim(s) == ""
  {
    var t := TrimStart(s);
    var a := |s| - |t|;
    TrimStartSpec(s);
    TrimEndSpec(t);
    assert t == s[a..];
    if Trim(s) == "" {
      assert |t| == 0;
    }
  }

  /** Kotlin `split(d)` with one non-empty delimiter: every piece, empty ones included, in order. */
  function Split(s: string, d: string): (parts: seq<string>)
    requires |d| > 0
    ensures |parts| >= 1
    decreases |s|
  {
    match IndexOf(s, d)
    case None => [s]
    case Some(i) => [s[..i]] + Split(s[i + |d|..], d)
  }

  /** The first piece of a split is the text before the first delimiter, and there is a second
      piece exactly when the delimiter occurs; that piece ends before the next delimiter. */
  lemma SplitHead(s: string, d: string)
    requires |d| > 0
    ensures Split(s, d)[0] == SubstringBefore(s, d)
    ensures |Split(s, d)| > 1 <==> Contains(s, d)
    ensures |Split(s, d)| > 1 ==> Split(s, d)[1] == SubstringBefore(SubstringAfter(s, d), d)
  {
    var parts := Split(s, d);
    if IndexOf(s, d).None? {
      assert parts == [s];
    } else {
      var i := IndexOf(s, d).value;
      var rest := s[i + |d|..];
      assert SubstringAfter(s, d) == rest;
      var tail := Split(rest, d);
      assert parts == [s[..i]] + tail;
      assert parts[1] == tail[0];
      if IndexOf(rest, d).None? {
        assert tail == [rest];
      } else {
        var k := IndexOf(rest, d).value;
        assert tail == [rest[..k]] + Split(rest[k + |d|..], d);
      }
    }
  }

  /** Kotlin `joinToString(d)`. */
  function Join(parts: seq<string>, d: string): string
  {
    if |parts| == 0 then ""
    else if |parts| == 1 then parts[0]
    else parts[0] + d + Join(parts[1..], d)
  }

  /** Splitting and joining with the same delimiter gives back the original text. */
  lemma {:induction false} JoinSplit(s: string, d: string)
    requires |d| > 0
    ensures Join(Split(s, d), d) == s
    decreases |s|
  {
    var r := IndexOf(s, d);
    if r.Some? {
      var i := r.value;
      var rest := s[i + |d|..];
      JoinSplit(rest, d);
      var parts := Split(rest, d);
      var all := [s[..i]] + parts;
      assert Split(s, d) == all;
      assert all[1..] == parts;
      assert Join(all, d) == s[..i] + d + Join(parts, d);
      SubstringAroundDelimiter(s, d);
      assert SubstringBefore(s, d) == s[..i] && SubstringAfter(s, d) == rest;
    }
  }

  /** Kotlin `lines()`: the pieces of `s` separated by "\r\n", "\n" or "\r". */
  function Lines(s: string): (r: seq<string>)
    ensures |r| >= 1
    ensures forall k :: 0 <= k < |r| ==> NoLineBreak(r[k])
  {
    LinesFrom(s, 0, 0)
  }

  predicate NoLineBreak(s: string)
  {
    forall k :: 0 <= k < |s| ==> s[k] != '\n' && s[k] != '\r'
  }

  function LinesFrom(s: string, start: nat, i: nat): (r: seq<string>)
    requires start <= i <= |s|
    requires NoLineBreak(s[start..i])
    ensures |r| >= 1
    ensures forall k :: 0 <= k < |r| ==> NoLineBreak(r[k])
    decreases |s| - i
  {
    if i == |s| then [s[start..]]
    else if s[i] == '\n' then [s[start..i]] + LinesFrom(s, i + 1, i + 1)
    else if s[i] == '\r' then
      var next := if i + 1 < |s| && s[i + 1] == '\n' then i + 2 else i + 1;
      [s[start..i]] + LinesFrom(s, next, next)
    else
      assert s[start..i + 1] == s[start..i] + [s[i]];
      LinesFrom(s, start, i + 1)
  }

  /** The first line at or after `from` whose trimmed text satisfies `stop`, or `|lines|` when there is
      none: where a parser's "read until" loop over the lines ends. */
  function FirstTrimmedFrom(lines: seq<string>, from: nat, stop: string -> bool): (j: nat)
    ensures j <= |lines| && (from <= |lines| ==> from <= j)
    ensures j < |lines| ==> stop(Trim(lines[j]))
    ensures forall k {:trigger stop(Trim(lines[k]))} :: from <= k < j ==> !stop(Trim(lines[k]))
    decreases |lines| - from
  {
    if from >= |lines| then |lines|
    else if stop(Trim(lines[from])) then from
    else FirstTrimmedFrom(lines, from + 1, stop)
  }

  function Min(a: int, b: int): int
  {
    if a <= b then a else b
  }

  /** The elements of `xs` that satisfy `p`, in order (Kotlin `filter`). */
  function Filter<T>(xs: seq<T>, p: T -> bool): (r: seq<T>)
    ensures |r| <= |xs|
    ensures forall x :: x in r ==> x in xs && p(x)
    ensures forall x :: x in xs && p(x) ==> x in r
  {
    if |xs| == 0 then []
    else if p(xs[|xs| - 1]) then Filter(xs[..|xs| - 1], p) + [xs[|xs| - 1]]
    else Filter(xs[..|xs| - 1], p)
  }

  /** Filtering a concatenation filters each part. */
  lemma {:induction false} FilterAppend<T>(a: seq<T>, b: seq<T>, p: T -> bool)
    ensures Filter(a + b, p) == Filter(a, p) + Filter(b, p)
    decreases |b|
  {
    if |b| > 0 {
      var b' := b[..|b| - 1];
      assert (a + b)[..|a + b| - 1] == a + b';
      assert (a + b)[|a + b| - 1] == b[|b| - 1];
      FilterAppend(a, b', p);
      if p(b[|b| - 1]) {
        assert Filter(a + b, p) == Filter(a + b', p) + [b[|b| - 1]];
        assert Filter(b, p) == Filter(b', p) + [b[|b| - 1]];
      } else {
        assert Filter(a + b, p) == Filter(a + b', p);
        assert Filter(b, p) == Filter(b', p);
      }
    } else {
      assert a + b == a;
    }
  }

  /** Filtering a prefix none of whose elements pass gives nothing. */
  lemma {:induction false} FilterNone<T>(a: seq<T>, p: T -> bool)
    requires forall i :: 0 <= i < |a| ==> !p(a[i])
    ensures Filter(a, p) == []
    decreases |a|
  {
    if |a| > 0 {
      FilterNone(a[..|a| - 1], p);
    }
  }

  /** `x` after `pre`, where no element of `pre` passes whenever `x` does: `x`'s own passing element
      comes first. */
  lemma FilterSwap<T>(pre: seq<T>, x: T, p: T -> bool)
    requires p(x) ==> forall i :: 0 <= i < |pre| ==> !p(pre[i])
    ensures Filter(pre + [x], p) == Filter([x], p) + Filter(pre, p)
  {
    assert (pre + [x])[..|pre|] == pre;
    assert [x][..0] == [];
    if p(x) {
      FilterNone(pre, p);
    }
  }

  /** Putting `x` between `pre` and `post`, where no element of `pre` passes whenever `x` does, keeps
      `x` ahead of every passing element: the passing elements are `x`'s own (if it passes), then
      those of `pre + post`. */
  lemma FilterInsert<T>(pre: seq<T>, x: T, post: seq<T>, p: T -> bool)
    requires p(x) ==> forall i :: 0 <= i < |pre| ==> !p(pre[i])
    ensures Filter(pre + [x] + post, p) == Filter([x], p) + Filter(pre + post, p)
  {
    FilterAppend(pre + [x], post, p);
    FilterSwap(pre, x, p);
    FilterAppend(pre, post, p);
    AppendAssociative(Filter([x], p), Filter(pre, p), Filter(post, p));
  }

  /** `x` put in at `k` of `s`, where no element before `k` passes whenever `x` does: `x`'s own
      passing element, then those of `s`. */
  lemma FilterInsertAt<T>(s: seq<T>, k: nat, x: T, p: T -> bool)
    requires k <= |s|
    requires p(x) ==> forall i :: 0 <= i < k ==> !p(s[i])
    ensures Filter(s[..k] + [x] + s[k..], p) == Filter([x], p) + Filter(s, p)
  {
    var pre, post := s[..k], s[k..];
    assert pre + post == s;
    FilterInsert(pre, x, post, p);
  }

  /** Filtering a non-empty sequence: its head's passing element, then those of its tail. */
  lemma FilterHead<T>(xs: seq<T>, p: T -> bool)
    requires |xs| > 0
    ensures Filter(xs, p) == Filter([xs[0]], p) + Filter(xs[1..], p)
  {
    FilterAppend([xs[0]], xs[1..], p);
    assert [xs[0]] + xs[1..] == xs;
  }

  lemma AppendAssociative<T>(a: seq<T>, b: seq<T>, c: seq<T>)
    ensures (a + b) + c == a + (b + c)
  {
  }

  /** Kotlin `map`: `f` applied to each element, in order. */
  function Map<T, U>(xs: seq<T>, f: T -> U): (r: seq<U>)
    ensures |r| == |xs|
    ensures forall k :: 0 <= k < |r| ==> r[k] == f(xs[k])
  {
    if |xs| == 0 then [] else Map(xs[..|xs| - 1], f) + [f(xs[|xs| - 1])]
  }

  /** No element occurs twice. */
  ghost predicate NoRepeats<T>(xs: seq<T>)
  {
    forall i, j :: 0 <= i < j < |xs| ==> xs[i] != xs[j]
  }

  /** In a sequence without repeats, the last element is not among the others, and the others
      have no repeats either. */
  lemma DistinctLast<T>(xs: seq<T>)
    requires |xs| > 0 && NoRepeats(xs)
    ensures xs[|xs| - 1] !in xs[..|xs| - 1]
    ensures NoRepeats(xs[..|xs| - 1])
  {
    var init := xs[..|xs| - 1];
    forall k | 0 <= k < |init|
      ensures init[k] != xs[|xs| - 1]
    {
      assert init[k] == xs[k];
    }
  }

  /** Kotlin `flatMap`: the pieces `f` gives for the elements, in order. */
  function FlatMap<T, U>(xs: seq<T>, f: T -> seq<U>): seq<U>
  {
    if |xs| == 0 then [] else FlatMap(xs[..|xs| - 1], f) + f(xs[|xs| - 1])
  }

  lemma FlatMapSnoc<T, U>(xs: seq<T>, x: T, f: T -> seq<U>)
    ensures FlatMap(xs + [x], f) == FlatMap(xs, f) + f(x)
  {
    assert (xs + [x])[..|xs|] == xs;
  }

  /** What `flatMap` gives is exactly what `f` gives for some element. */
  lemma {:induction false} FlatMapMembers<T, U>(xs: seq<T>, f: T -> seq<U>, u: U)
    ensures u in FlatMap(xs, f) <==> exists x :: x in xs && u in f(x)
  {
    if |xs| > 0 {
      var init := xs[..|xs| - 1];
      FlatMapMembers(init, f, u);
      assert forall x :: x in xs <==> x in init || x == xs[|xs| - 1];
    }
  }

  /** When each element gives at most one value, and that value's key is the element, the keys of
      the values have no repeats if the elements have none. */
  lemma {:induction false} FlatMapKeysDistinct<T, U>(xs: seq<T>, f: T -> seq<U>, key: U -> T)
    requires NoRepeats(xs)
    requires forall x :: x in xs ==> |f(x)| <= 1 && forall u :: u in f(x) ==> key(u) == x
    ensures NoRepeats(Map(FlatMap(xs, f), key))
  {
    if |xs| > 0 {
      var init := xs[..|xs| - 1];
      var last := xs[|xs| - 1];
      DistinctLast(xs);
      FlatMapKeysDistinct(init, f, key);
      var a := FlatMap(init, f);
      var r := FlatMap(xs, f);
      var m := Map(r, key);
      var ma := Map(a, key);
      forall i, j | 0 <= i < j < |m|
        ensures m[i] != m[j]
      {
        assert r[i] == a[i] && a[i] in a;
        if j < |a| {
          assert r[j] == a[j];
          assert ma[i] != ma[j];
        } else {
          assert r[j] in f(last);
          FlatMapMembers(init, f, a[i]);
          var x :| x in init && a[i] in f(x);
        }
      }
    }
  }

  /** The first index in `[from, |xs|)` whose element satisfies `p` (the loop of Kotlin `find`). */
  function FirstIndexFrom<T>(xs: seq<T>, from: nat, p: T -> bool): (r: Option<nat>)
    ensures r.Some? ==> from <= r.value < |xs| && p(xs[r.value])
    ensures forall k :: from <= k < |xs| && (r.None? || k < r.value) ==> !p(xs[k])
    decreases |xs| - from
  {
    if from >= |xs| then None
    else if p(xs[from]) then Some(from)
    else FirstIndexFrom(xs, from + 1, p)
  }

  /** Kotlin `find`: the first element that satisfies `p`. */
  function FirstWhere<T>(xs: seq<T>, p: T -> bool): Option<T>
  {
    match FirstIndexFrom(xs, 0, p)
    case Some(k) => Some(xs[k])
    case None => None
  }

  /** The last index in `[lo, hi)` whose element satisfies `p`. */
  function LastIndexIn<T>(xs: seq<T>, lo: nat, hi: nat, p: T -> bool): (r: Option<nat>)
    requires lo <= hi <= |xs|
    ensures r.Some? ==> lo <= r.value < hi && p(xs[r.value])
    ensures forall k :: lo <= k < hi && (r.None? || r.value < k) ==> !p(xs[k])
    decreases hi - lo
  {
    if hi == lo then None
    else if p(xs[hi - 1]) then Some(hi - 1)
    else LastIndexIn(xs, lo, hi - 1, p)
  }

  /** No two elements of `xs` have the same key. */
  predicate DistinctBy<T>(xs: seq<T>, key: T -> string)
  {
    forall i, j :: 0 <= i < j < |xs| ==> key(xs[i]) != key(xs[j])
  }

  /** Inserting an element whose key is new keeps the keys distinct, wherever it goes. */
  lemma InsertKeepsDistinct<T>(s: seq<T>, k: nat, x: T, key: T -> string)
    requires k <= |s| && DistinctBy(s, key)
    requires forall y :: y in s ==> key(y) != key(x)
    ensures DistinctBy(s[..k] + [x] + s[k..], key)
  {
    var r := s[..k] + [x] + s[k..];
    forall i, j | 0 <= i < j < |r|
      ensures key(r[i]) != key(r[j])
    {
      if i == k {
        assert r[j] == s[j - 1];
      } else if j == k {
        assert r[i] == s[i];
      } else {
        var i' := if i < k then i else i - 1;
        var j' := if j < k then j else j - 1;
        assert r[i] == s[i'] && r[j] == s[j'];
      }
    }
  }

  predicate AllDigits(s: string)
  {
    forall k :: 0 <= k < |s| ==> IsDigit(s[k])
  }

  /** The decimal value of a string of ASCII digits. */
  function DigitsValue(s: string): nat
    requires AllDigits(s)
  {
    if |s| == 0 then 0 else 10 * DigitsValue(s[..|s| - 1]) + (s[|s| - 1] as int - '0' as int)
  }

  /** Kotlin `toIntOrNull()`/`toLongOrNull()` for the range `[lo, hi]`: an optional sign followed by
      at least one digit, and the value in range. */
  function ParseSigned(s: string, lo: int, hi: int): (r: Option<int>)
    ensures r.Some? ==> lo <= r.value <= hi
    ensures |s| == 0 ==> r.None?
  {
    if |s| == 0 then None
    else
      var body := if s[0] == '-' || s[0] == '+' then s[1..] else s;
      if |body| == 0 || !AllDigits(body) then None
      else
        var m: int := DigitsValue(body);
        var v := if s[0] == '-' then -m else m;
        if lo <= v <= hi then Some(v) else None
  }

  /** Kotlin `toIntOrNull()` (32-bit). */
  function ToIntOrNull(s: string): Option<int>
  {
    ParseSigned(s, INT_MIN, INT_MAX)
  }

  /** Kotlin `toLongOrNull()` (64-bit). */
  function ToLongOrNull(s: string): Option<int>
  {
    ParseSigned(s, LONG_MIN, LONG_MAX)
  }

  /** `?.toIntOrNull() ?: d` on an optional text. */
  function IntOr(v: Option<string>, d: int): (n: int)
    ensures v.None? ==> n == d
    ensures v.Some? ==> n == (if ToIntOrNull(v.value).Some? then ToIntOrNull(v.value).value else d)
  {
    match v
    case None => d
    case Some(t) => match ToIntOrNull(t) case Some(n) => n case None => d
  }

  /** `?.toLongOrNull() ?: d` on an optional text. */
  function LongOr(v: Option<string>, d: int): (n: int)
    ensures v.None? ==> n == d
    ensures v.Some? ==> n == (if ToLongOrNull(v.value).Some? then ToLongOrNull(v.value).value else d)
  {
    match v
    case None => d
    case Some(t) => match ToLongOrNull(t) case Some(n) => n case None => d
  }

  /** `?: d` on an optional text. */
  function StringOr(v: Option<string>, d: string): string
  {
    match v
    case None => d
    case Some(t) => t
  }

  /** A string of digits parses to a value that is not negative. */
  lemma DigitsParseNonNegative(s: string, lo: int, hi: int)
    requires AllDigits(s)
    ensures ParseSigned(s, lo, hi).Some? ==> ParseSigned(s, lo, hi).value >= 0
  {
  }

  function DigitChar(d: nat): char
    requires d < 10
  {
    ('0' as int + d) as char
  }

  /** Decimal rendering of a natural number, without leading zeros. */
  function NatToString(n: nat): (r: string)
    ensures |r| >= 1 && AllDigits(r)
  {
    if n < 10 then [DigitChar(n)] else NatToString(n / 10) + [DigitChar(n % 10)]
  }

  /** Kotlin `Int.toString()`. */
  function IntToString(n: int): string
  {
    if n < 0 then "-" + NatToString(-n) else NatToString(n)
  }

  lemma {:induction false} NatToStringValue(n: nat)
    ensures DigitsValue(NatToString(n)) == n
  {
    if n >= 10 {
      NatToStringValue(n / 10);
      var s := NatToString(n);
      assert s[..|s| - 1] == NatToString(n / 10);
    }
  }

  /** Rendering an Int and parsing it back gives the same Int. */
  lemma IntToStringRoundTrip(n: int)
    requires INT_MIN <= n <= INT_MAX
    ensures ToIntOrNull(IntToString(n)) == Some(n)
  {
    var s := IntToString(n);
    if n < 0 {
      NatToStringValue(-n);
      assert s[0] == '-';
      assert s[1..] == NatToString(-n);
      assert DigitsValue(s[1..]) == -n;
    } else {
      NatToStringValue(n);
      assert s == NatToString(n);
      assert IsDigit(s[0]);
    }
  }

  /** A rendering starts with '-' exactly for a negative number. */
  lemma SignOf(n: int)
    ensures |IntToString(n)| >= 1 && (IntToString(n)[0] == '-' <==> n < 0)
  {
    if n >= 0 {
      assert IsDigit(NatToString(n)[0]);
    }
  }

  lemma NatToStringInjective(x: nat, y: nat)
    ensures NatToString(x) == NatToString(y) ==> x == y
  {
    NatToStringValue(x);
    NatToStringValue(y);
  }

  /** Different numbers render differently. */
  lemma IntToStringInjective(a: int, b: int)
    ensures IntToString(a) == IntToString(b) ==> a == b
  {
    SignOf(a);
    SignOf(b);
    var x: nat := if a < 0 then -a else a;
    var y: nat := if b < 0 then -b else b;
    NatToStringInjective(x, y);
    if IntToString(a) == IntToString(b) && a < 0 && b < 0 {
      assert NatToString(x) == IntToString(a)[1..];
      assert NatToString(y) == IntToString(b)[1..];
    }
  }

  /** A rendering holds only digits and '-'. */
  lemma IntToStringHasNo(n: int, c: char)
    requires !IsDigit(c) && c != '-'
    ensures c !in IntToString(n)
  {
    if n < 0 {
      assert IntToString(n) == "-" + NatToString(-n);
    }
  }

  /** The end of the run of regex spaces (`\s`) that starts at `i`. */
  function SpaceRunEnd(s: string, i: nat): (e: nat)
    requires i <= |s|
    ensures i <= e <= |s|
    ensures forall k :: i <= k < e ==> IsRegexSpace(s[k])
    ensures e < |s| ==> !IsRegexSpace(s[e])
    decreases |s| - i
  {
    if i < |s| && IsRegexSpace(s[i]) then SpaceRunEnd(s, i + 1) else i
  }

  predicate NoRegexSpace(s: string)
  {
    forall k :: 0 <= k < |s| ==> !IsRegexSpace(s[k])
  }

  function SplitSpacesFrom(s: string, start: nat, i: nat): (parts: seq<string>)
    requires start <= i <= |s|
    requires NoRegexSpace(s[start..i])
    ensures |parts| >= 1
    ensures forall k :: 0 <= k < |parts| ==> NoRegexSpace(parts[k])
    decreases |s| - i
  {
    if i == |s| then [s[start..]]
    else if IsRegexSpace(s[i]) then
      var e := SpaceRunEnd(s, i);
      [s[start..i]] + SplitSpacesFrom(s, e, e)
    else
      assert s[start..i + 1] == s[start..i] + [s[i]];
      SplitSpacesFrom(s, start, i + 1)
  }

  /** Kotlin `split(Regex("\\s+"))`: the pieces between runs of regex spaces, with the empty piece
      before a leading run and after a trailing run kept. */
  function SplitSpaces(s: string): (parts: seq<string>)
    ensures |parts| >= 1
    ensures forall k :: 0 <= k < |parts| ==> NoRegexSpace(parts[k])
  {
    SplitSpacesFrom(s, 0, 0)
  }

  predicate NonEmpty(s: string) { |s| > 0 }

  /** `split(Regex("\\s+")).filter { it.isNotEmpty() }`: the words of `s`. */
  function Words(s: string): (ws: seq<string>)
    ensures forall w :: w in ws ==> |w| > 0 && NoRegexSpace(w)
  {
    Filter(SplitSpaces(s), NonEmpty)
  }

  /** Kotlin's wrap-around of 32-bit `Int` arithmetic. */
  function Wrap32(x: int): (r: int)
    ensures INT_MIN <= r <= INT_MAX
    ensures INT_MIN <= x <= INT_MAX ==> r == x
  {
    (x - INT_MIN) % 0x1_0000_0000 + INT_MIN
  }

  /** Kotlin's wrap-around of 64-bit `Long` arithmetic. */
  function Wrap64(x: int): (r: int)
    ensures LONG_MIN <= r <= LONG_MAX
    ensures LONG_MIN <= x <= LONG_MAX ==> r == x
  {
    (x - LONG_MIN) % 0x1_0000_0000_0000_0000 + LONG_MIN
  }

  /** Kotlin's `String.compareTo(b) <= 0`: lexicographic order of the characters, a proper prefix
      first. */
  predicate LexLeq(a: string, b: string)
    decreases |a|
  {
    |a| == 0 || (|b| > 0 && (a[0] < b[0] || (a[0] == b[0] && LexLeq(a[1..], b[1..]))))
  }

  lemma {:induction false} LexLeqTotal(a: string, b: string)
    ensures LexLeq(a, b) || LexLeq(b, a)
    decreases |a|
  {
    if |a| > 0 && |b| > 0 && a[0] == b[0] {
      LexLeqTotal(a[1..], b[1..]);
    }
  }

  lemma {:induction false} LexLeqTransitive(a: string, b: string, c: string)
    requires LexLeq(a, b) && LexLeq(b, c)
    ensures LexLeq(a, c)
    decreases |a|
  {
    if |a| > 0 && a[0] == b[0] && b[0] == c[0] {
      LexLeqTransitive(a[1..], b[1..], c[1..]);
    }
  }

  lemma {:induction false} LexLeqAntisymmetric(a: string, b: string)
    requires LexLeq(a, b) && LexLeq(b, a)
    ensures a == b
    decreases |a|
  {
    if |a| > 0 {
      LexLeqAntisymmetric(a[1..], b[1..]);
      assert a == [a[0]] + a[1..] && b == [b[0]] + b[1..];
    }
  }

  /** Kotlin `distinct()`: the first occurrence of each element, in order. */
  function Distinct(xs: seq<string>): (r: seq<string>)
    ensures forall x :: x in r <==> x in xs
    ensures forall i, j :: 0 <= i < j < |r| ==> r[i] != r[j]
  {
    if |xs| == 0 then []
    else
      var r := Distinct(xs[..|xs| - 1]);
      assert forall x :: x in xs <==> x in xs[..|xs| - 1] || x == xs[|xs| - 1];
      if xs[|xs| - 1] in r then r else r + [xs[|xs| - 1]]
  }

  /** Kotlin `take(n)`. */
  function Take<T>(xs: seq<T>, n: nat): (r: seq<T>)
    ensures |r| == Min(|xs|, n) && r == xs[..|r|]
  {
    if |xs| <= n then xs else xs[..n]
  }

  /** Kotlin `List.indexOf(x)`, with `None` for -1. */
  function SeqIndexOf<T(==)>(xs: seq<T>, x: T): (r: Option<nat>)
    ensures r.Some? ==> r.value < |xs| && xs[r.value] == x && forall k :: 0 <= k < r.value ==> xs[k] != x
    ensures r.None? ==> x !in xs
  {
    FirstIndexFrom(xs, 0, y => y == x)
  }
  /** No piece of a split contains the delimiter. */
  lemma {:induction false} SplitPiecesLackDelimiter(s: string, d: string)
    requires |d| > 0
    ensures forall k :: 0 <= k < |Split(s, d)| ==> !Contains(Split(s, d)[k], d)
    decreases |s|
  {
    match IndexOf(s, d)
    case None =>
    case Some(i) =>
      SubstringAroundDelimiter(s, d);
      SplitPiecesLackDelimiter(s[i + |d|..], d);
      var parts := Split(s, d);
      assert parts == [s[..i]] + Split(s[i + |d|..], d);
      forall k | 0 <= k < |parts|
        ensures !Contains(parts[k], d)
      {
        if k > 0 {
          assert parts[k] == Split(s[i + |d|..], d)[k - 1];
        }
      }
  }

  /** Text that contains `p` still contains it with more text after it. */
  lemma ContainsExtend(a: string, b: string, p: string)
    requires Contains(a, p)
    ensures Contains(a + b, p)
  {
    var j := IndexOf(a, p).value;
    assert OccursAt(a, p, j);
    assert (a + b)[j..j + |p|] == a[j..j + |p|];
    assert OccursAt(a + b, p, j);
    ContainsIff(a + b, p);
  }

  /** A text contains every piece it is built from. */
  lemma ContainsInside(a: string, x: string, b: string)
    ensures Contains(a + x + b, x)
  {
    assert (a + x + b)[|a|..|a| + |x|] == x;
    assert OccursAt(a + x + b, x, |a|);
    ContainsIff(a + x + b, x);
  }

  /** Text that contains `p + q` contains `p`. */
  lemma ContainsPrefixOf(s: string, p: string, q: string)
    requires Contains(s, p + q)
    ensures Contains(s, p)
  {
    var j := IndexOf(s, p + q).value;
    assert s[j..j + |p|] == (p + q)[..|p|] == p;
    assert OccursAt(s, p, j);
    ContainsIff(s, p);
  }

  /** Once an element satisfying `p` is found, elements appended later do not change the answer. */
  lemma {:induction false} FirstIndexFromPrefix<T>(xs: seq<T>, more: seq<T>, from: nat, p: T -> bool)
    requires FirstIndexFrom(xs, from, p).Some?
    ensures FirstIndexFrom(xs + more, from, p) == FirstIndexFrom(xs, from, p)
    decreases |xs| - from
  {
    assert (xs + more)[from] == xs[from];
    if !p(xs[from]) {
      FirstIndexFromPrefix(xs, more, from + 1, p);
    }
  }

  /** The index of the first line that contains `marker`: what `find { it.contains(marker) }` and the
      `for ... return` loops over the lines look for. */
  function FirstLineWith(lines: seq<string>, marker: string): (r: Option<nat>)
    ensures r.Some? ==> r.value < |lines| && Contains(lines[r.value], marker)
    ensures forall k :: 0 <= k < |lines| && (r.None? || k < r.value) ==> !Contains(lines[k], marker)
  {
    FirstIndexFrom(lines, 0, (l: string) => Contains(l, marker))
  }

  /** Lines after the first line with `marker` do not change which line that is. */
  lemma FirstLineWithIgnoresLater(lines: seq<string>, more: seq<string>, marker: string)
    requires FirstLineWith(lines, marker).Some?
    ensures FirstLineWith(lines + more, marker) == FirstLineWith(lines, marker)
  {
    FirstIndexFromPrefix(lines, more, 0, (l: string) => Contains(l, marker));
  }
}
