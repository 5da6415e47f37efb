/** The Java regular expressions the dump parsers use, as data, with a matcher that follows
    java.util.regex: `find` tries start positions from left to right, quantifiers are greedy
    (longest first) or lazy (shortest first) and back off when the rest of the pattern fails,
    alternatives are tried in order, and a group that did not take part reads as "". */
module Patterns {
  import opened Text

  /** A character class: `\d`, `\w`, `\s`, `.`, a set of listed characters, a union, a negation. */
  datatype CharClass =
    | Digit
    | Word
    | Space
    | Dot
    | Chars(cs: string)
    | Union(a: CharClass, b: CharClass)
    | Not(a: CharClass)

  predicate InClass(c: char, k: CharClass)
  {
    match k
    case Digit => IsDigit(c)
    case Word => IsWordChar(c)
    case Space => IsRegexSpace(c)
    case Dot => !IsLineTerminator(c)
    case Chars(cs) => c in cs
    case Union(a, b) => InClass(c, a) || InClass(c, b)
    case Not(a) => !InClass(c, a)
  }

  /** One element of a pattern. `Run(k, lo, hi, lazy)` is `k{lo,hi}` (`hi == None` for no upper bound),
      lazy when `lazy` holds. `Group(n, body)` is capturing group number `n`. `Opt` is `(?:body)?`,
      `Seq` is `(?:body)`, `Alt` is `(?:a|b|...)`, `Star` is `(?:body)*`, `Start` and `End` are `^` and `$`.
      `Close(n, start)` is the matcher's own bookkeeping for a group opened at `start`. */
  datatype Item =
    | Lit(text: string)
    | Run(cls: CharClass, lo: nat, hi: Option<nat>, lazy: bool)
    | Group(index: nat, body: seq<Item>)
    | Seq(body: seq<Item>)
    | Opt(body: seq<Item>)
    | Alt(options: seq<Item>)
    | Star(body: seq<Item>)
    | Start
    | End
    | Close(index: nat, start: nat)

  type Pattern = seq<Item>

  /** `k+`, `k*`, `k*?` and `k{n}`. */
  function Plus(k: CharClass): Item { Run(k, 1, None, false) }
  function Many(k: CharClass): Item { Run(k, 0, None, false) }
  function FewestMany(k: CharClass): Item { Run(k, 0, None, true) }
  function Exactly(k: CharClass, n: nat): Item { Run(k, n, Some(n), false) }

  /** `[^\s]`, and `[^\s` followed by the listed characters `]`. */
  const NonSpace: CharClass := Not(Space)
  function NonSpaceNor(cs: string): CharClass { Not(Union(Space, Chars(cs))) }

  /** A measure on patterns that every step of the matcher makes smaller or keeps while it moves on
      in the text. */
  function ItemSize(it: Item): (n: nat)
    ensures n >= 1
    decreases it
  {
    match it
    case Group(_, body) => 2 + Size(body)
    case Seq(body) => 1 + Size(body)
    case Opt(body) => 1 + Size(body)
    case Alt(options) => 1 + Size(options)
    case Star(body) => 2 + Size(body)
    case _ => 1
  }

  function Size(items: seq<Item>): nat
    decreases items
  {
    if |items| == 0 then 0 else ItemSize(items[0]) + Size(items[1..])
  }

  lemma {:induction false} SizeAppend(a: seq<Item>, b: seq<Item>)
    ensures Size(a + b) == Size(a) + Size(b)
    decreases |a|
  {
    if |a| == 0 {
      assert a + b == b;
    } else {
      assert (a + b)[0] == a[0];
      assert (a + b)[1..] == a[1..] + b;
      SizeAppend(a[1..], b);
    }
  }

  lemma SizeCons(it: Item, rest: seq<Item>)
    ensures Size([it] + rest) == ItemSize(it) + Size(rest)
  {
    assert ([it] + rest)[0] == it;
    assert ([it] + rest)[1..] == rest;
  }

  /** How many characters of class `k` follow position `p`, counting at most `hi`. */
  function RunLength(s: string, p: nat, k: CharClass, hi: Option<nat>): (n: nat)
    requires p <= |s|
    ensures p + n <= |s|
    ensures forall q :: p <= q < p + n ==> InClass(s[q], k)
    ensures hi.Some? ==> n <= hi.value
    ensures p + n < |s| && (hi.None? || n < hi.value) ==> !InClass(s[p + n], k)
    decreases |s| - p
  {
    if p == |s| || !InClass(s[p], k) || hi == Some(0) then 0
    else
      var next := if hi.Some? then Some(hi.value - 1) else None;
      1 + RunLength(s, p + 1, k, next)
  }

  /** Java's `$` without flags: the end of the text, or just before a line terminator that ends it. */
  predicate AtEnd(s: string, p: nat)
  {
    p == |s|
    || (p + 2 == |s| && s[p] == '\r' && s[p + 1] == '\n')
    || (p + 1 == |s| && IsLineTerminator(s[p]) && !(s[p] == '\n' && p > 0 && s[p - 1] == '\r'))
  }

  /** The state after a successful match: where it ended and the groups it captured. */
  datatype State = State(pos: nat, groups: map<nat, string>)

  /** Matches `items` at position `p` of `s`, given the groups captured so far, backtracking through
      the choices the pattern leaves open; `None` when no choice leads to a match. */
  function Match(items: Pattern, s: string, p: nat, g: map<nat, string>): (r: Option<State>)
    requires p <= |s|
    ensures r.Some? ==> p <= r.value.pos <= |s|
    decreases Size(items), |s| - p, 0, 0
  {
    if |items| == 0 then Some(State(p, g))
    else
      var rest := items[1..];
      assert Size(items) == ItemSize(items[0]) + Size(rest);
      match items[0]
      case Lit(t) => if OccursAt(s, t, p) then Match(rest, s, p + |t|, g) else None
      case Run(k, lo, hi, lazy) =>
        var n := RunLength(s, p, k, hi);
        if n < lo then None
        else if lazy then Fewest(rest, s, p, lo, n, g)
        else Longest(rest, s, p, lo, n, g)
      case Group(k, body) =>
        SizeAppend(body, [Close(k, p)] + rest);
        SizeCons(Close(k, p), rest);
        Match(body + ([Close(k, p)] + rest), s, p, g)
      case Close(k, start) =>
        if start <= p then Match(rest, s, p, g[k := s[start..p]]) else None
      case Seq(body) =>
        SizeAppend(body, rest);
        Match(body + rest, s, p, g)
      case Opt(body) =>
        SizeAppend(body, rest);
        var taken := Match(body + rest, s, p, g);
        if taken.Some? then taken else Match(rest, s, p, g)
      case Alt(options) => FirstAlternative(options, rest, s, p, g)
      case Star(body) =>
        var e := Repeat(body, s, p, g);
        Match(rest, s, e.pos, e.groups)
      case Start => if p == 0 then Match(rest, s, p, g) else None
      case End => if AtEnd(s, p) then Match(rest, s, p, g) else None
  }

  /** A greedy quantifier: `m` repetitions first, then fewer down to `lo`. */
  function Longest(rest: Pattern, s: string, p: nat, lo: nat, m: nat, g: map<nat, string>): (r: Option<State>)
    requires lo <= m && p + m <= |s|
    ensures r.Some? ==> p <= r.value.pos <= |s|
    decreases Size(rest), |s| - p, 1, m
  {
    var r := Match(rest, s, p + m, g);
    if r.Some? || m == lo then r else Longest(rest, s, p, lo, m - 1, g)
  }

  /** A lazy quantifier: `lo` repetitions first, then more up to `hi`. */
  function Fewest(rest: Pattern, s: string, p: nat, lo: nat, hi: nat, g: map<nat, string>): (r: Option<State>)
    requires lo <= hi && p + hi <= |s|
    ensures r.Some? ==> p <= r.value.pos <= |s|
    decreases Size(rest), |s| - p, 1, hi - lo
  {
    var r := Match(rest, s, p + lo, g);
    if r.Some? || lo == hi then r else Fewest(rest, s, p, lo + 1, hi, g)
  }

  /** Alternatives in order, each followed by the rest of the pattern. */
  function FirstAlternative(options: seq<Item>, rest: Pattern, s: string, p: nat, g: map<nat, string>)
    : (r: Option<State>)
    requires p <= |s|
    ensures r.Some? ==> p <= r.value.pos <= |s|
    decreases Size(options) + Size(rest), |s| - p, 1, 0
  {
    if |options| == 0 then None
    else
      SizeCons(options[0], rest);
      assert Size(options) == ItemSize(options[0]) + Size(options[1..]);
      var r := Match([options[0]] + rest, s, p, g);
      if r.Some? then r else FirstAlternative(options[1..], rest, s, p, g)
  }

  /** `(?:body)*`: as many non-empty repetitions as match one after the other. Each parser pattern
      with a `*` group ends right after it, so the first run of repetitions is the one Java keeps. */
  function Repeat(body: Pattern, s: string, p: nat, g: map<nat, string>): (e: State)
    requires p <= |s|
    ensures p <= e.pos <= |s|
    decreases Size(body) + 1, |s| - p, 0, 0
  {
    match Match(body, s, p, g)
    case Some(next) => if next.pos > p then Repeat(body, s, next.pos, next.groups) else State(p, g)
    case None => State(p, g)
  }

  /** A successful `find`: where the match starts and ends, and its groups. */
  datatype Found = Found(start: nat, end: nat, groups: map<nat, string>)

  /** Kotlin `groupValues[n]`: the text of group `n`, or "" when it did not take part. */
  function GroupValue(f: Found, n: nat): string
  {
    if n in f.groups then f.groups[n] else ""
  }

  /** `Regex(pattern).find(s, from)`: the match at the first start position that has one. */
  function FindFrom(pat: Pattern, s: string, from: nat): (r: Option<Found>)
    requires from <= |s|
    ensures r.Some? ==> from <= r.value.start <= r.value.end <= |s|
    decreases |s| - from
  {
    match Match(pat, s, from, map[])
    case Some(st) => Some(Found(from, st.pos, st.groups))
    case None => if from == |s| then None else FindFrom(pat, s, from + 1)
  }

  /** `find` reports the match at the first start position where the pattern matches, and the
      pattern matches at no earlier position. */
  lemma {:induction false} FindFromSpec(pat: Pattern, s: string, from: nat)
    requires from <= |s|
    ensures var r := FindFrom(pat, s, from);
            r.Some? ==> Match(pat, s, r.value.start, map[]) == Some(State(r.value.end, r.value.groups))
    ensures var r := FindFrom(pat, s, from);
            forall q :: from <= q <= |s| && (r.None? || q < r.value.start) ==> Match(pat, s, q, map[]).None?
    decreases |s| - from
  {
    if Match(pat, s, from, map[]).None? && from < |s| {
      FindFromSpec(pat, s, from + 1);
    }
  }

  function Find(pat: Pattern, s: string): Option<Found>
  {
    FindFrom(pat, s, 0)
  }

  /** `find(s)?.groupValues?.get(n)`. */
  function FindGroup(pat: Pattern, s: string, n: nat): Option<string>
  {
    match Find(pat, s)
    case Some(f) => Some(GroupValue(f, n))
    case None => None
  }

  /** `findAll(s).map { it.groupValues[n] }`: each next search starts where the last match ended
      (one further after an empty match). */
  function FindAllFrom(pat: Pattern, s: string, from: nat, n: nat): seq<string>
    requires from <= |s|
    decreases |s| - from
  {
    match FindFrom(pat, s, from)
    case None => []
    case Some(f) =>
      if f.end > f.start then [GroupValue(f, n)] + FindAllFrom(pat, s, f.end, n)
      else if f.end < |s| then [GroupValue(f, n)] + FindAllFrom(pat, s, f.end + 1, n)
      else [GroupValue(f, n)]
  }

  /** One step of `findAll`: the value of the match at `from`, then the values from where the next
      search starts, or nothing more after an empty match at the end. */
  lemma FindAllFromStep(pat: Pattern, s: string, from: nat, n: nat)
    requires from <= |s| && FindFrom(pat, s, from).Some?
    ensures var f := FindFrom(pat, s, from).value;
            FindAllFrom(pat, s, from, n) ==
              [GroupValue(f, n)] + (if f.end > f.start then FindAllFrom(pat, s, f.end, n)
                                    else if f.end < |s| then FindAllFrom(pat, s, f.end + 1, n)
                                    else [])
  {
  }

  /** The loop over `findAll(s)` that collects group `n` of each match. */
  method FindAllValues(pat: Pattern, s: string, n: nat) returns (values: seq<string>)
    ensures values == FindAllFrom(pat, s, 0, n)
  {
    values := [];
    var from := 0;
    var done := false;
    while !done
      invariant from <= |s|
      invariant done ==> values == FindAllFrom(pat, s, 0, n)
      invariant !done ==> values + FindAllFrom(pat, s, from, n) == FindAllFrom(pat, s, 0, n)
      decreases |s| - from, if done then 0 else 1
    {
      var value, resume, last := NextMatch(pat, s, from, n);
      if value.None? {
        done := true;
      } else {
        if last {
          assert values + [value.value] == values + ([value.value] + []);
        } else {
          assert values + [value.value] + FindAllFrom(pat, s, resume, n)
              == values + ([value.value] + FindAllFrom(pat, s, resume, n));
        }
        values := values + [value.value];
        from, done := resume, last;
      }
    }
  }

  /** One search of `findAll`: group `n` of the match at or after `from`, if any, and where the next
      search starts; `last` when an empty match at the end leaves none. */
  method NextMatch(pat: Pattern, s: string, from: nat, n: nat) returns (value: Option<string>, resume: nat, last: bool)
    requires from <= |s|
    ensures from <= resume <= |s| && (value.None? || last ==> resume == from)
    ensures value.None? ==> FindAllFrom(pat, s, from, n) == []
    ensures value.Some? && last ==> FindAllFrom(pat, s, from, n) == [value.value]
    ensures value.Some? && !last ==>
              from < resume && FindAllFrom(pat, s, from, n) == [value.value] + FindAllFrom(pat, s, resume, n)
  {
    var next := FindFrom(pat, s, from);
    resume, last := from, false;
    if next.None? {
      value := None;
    } else {
      var f := next.value;
      FindAllFromStep(pat, s, from, n);
      value := Some(GroupValue(f, n));
      if f.end > f.start {
        resume := f.end;
      } else if f.end < |s| {
        resume := f.end + 1;
      } else {
        last := true;
      }
    }
  }

  /** A pattern that begins with a literal matches only where that literal occurs. */
  lemma MatchStartsWithLit(t: string, rest: Pattern, s: string, p: nat, g: map<nat, string>)
    requires p <= |s|
    ensures Match([Lit(t)] + rest, s, p, g).Some? ==> OccursAt(s, t, p)
  {
    assert ([Lit(t)] + rest)[0] == Lit(t);
  }

  /** So `find` fails on a text that does not contain that literal. */
  lemma {:induction false} FindNeedsLit(t: string, rest: Pattern, s: string, from: nat)
    requires from <= |s|
    requires forall q :: from <= q ==> !OccursAt(s, t, q)
    ensures FindFrom([Lit(t)] + rest, s, from).None?
    decreases |s| - from
  {
    MatchStartsWithLit(t, rest, s, from, map[]);
    if from < |s| {
      FindNeedsLit(t, rest, s, from + 1);
    }
  }

  lemma FindWithoutLit(t: string, rest: Pattern, s: string)
    requires !Contains(s, t)
    ensures Find([Lit(t)] + rest, s).None?
  {
    FindNeedsLit(t, rest, s, 0);
  }

  /** `key(k+)`: a literal followed by a captured run of class `k`, the most common pattern in the
      parsers (`rb=(\d+)`, `ty=([^\s}]+)`, ...). */
  function KeyedRun(key: string, k: CharClass): Pattern
  {
    [Lit(key), Group(1, [Plus(k)])]
  }

  /** `key` occurs at `p` and a character of class `k` follows it. */
  predicate KeyedAt(s: string, key: string, k: CharClass, p: nat)
  {
    OccursAt(s, key, p) && p + |key| < |s| && InClass(s[p + |key|], k)
  }

  /** The first position at or after `from` where `key` is followed by a character of class `k`. */
  function FirstKeyedFrom(s: string, key: string, k: CharClass, from: nat): (r: Option<nat>)
    ensures r.Some? ==> from <= r.value && KeyedAt(s, key, k, r.value)
    ensures forall q :: from <= q && (r.None? || q < r.value) ==> !KeyedAt(s, key, k, q)
    decreases |s| - from
  {
    if from >= |s| then None
    else if KeyedAt(s, key, k, from) then Some(from)
    else FirstKeyedFrom(s, key, k, from + 1)
  }

  /** The reference reading of `key(k+)`: the longest run of class `k` right after the first `key`
      that has one. */
  function KeyedValue(s: string, key: string, k: CharClass): (r: Option<string>)
    ensures r.Some? ==> |r.value| >= 1 && forall q :: 0 <= q < |r.value| ==> InClass(r.value[q], k)
  {
    match FirstKeyedFrom(s, key, k, 0)
    case None => None
    case Some(p) =>
      var q := p + |key|;
      Some(s[q..q + RunLength(s, q, k, None)])
  }

  lemma MatchKeyedRun(key: string, k: CharClass, s: string, p: nat)
    requires p <= |s|
    ensures var r := Match(KeyedRun(key, k), s, p, map[]);
            var q := p + |key|;
            (r.Some? <==> KeyedAt(s, key, k, p))
            && (r.Some? ==> r.value.groups == map[1 := s[q..q + RunLength(s, q, k, None)]])
  {
    var pat := KeyedRun(key, k);
    assert pat[0] == Lit(key);
    assert pat[1..] == [Group(1, [Plus(k)])];
    if OccursAt(s, key, p) {
      var q := p + |key|;
      var after := [Close(1, q)] + [];
      assert [Group(1, [Plus(k)])][1..] == [];
      assert Match(pat, s, p, map[]) == Match([Group(1, [Plus(k)])], s, q, map[]);
      assert Match([Group(1, [Plus(k)])], s, q, map[]) == Match([Plus(k)] + after, s, q, map[]);
      assert ([Plus(k)] + after)[0] == Run(k, 1, None, false);
      assert ([Plus(k)] + after)[1..] == after;
      var n := RunLength(s, q, k, None);
      if n >= 1 {
        assert Match([Plus(k)] + after, s, q, map[]) == Longest(after, s, q, 1, n, map[]);
        assert after[1..] == [];
        assert Match(after, s, q + n, map[]) == Some(State(q + n, map[1 := s[q..q + n]]));
      }
    }
  }

  /** The value `key(k+)` captures when it matches at `p`. */
  function RunAfter(s: string, key: string, k: CharClass, p: nat): string
    requires p + |key| <= |s|
  {
    s[p + |key|..p + |key| + RunLength(s, p + |key|, k, None)]
  }

  lemma FindKeyedRunHere(key: string, k: CharClass, s: string, from: nat)
    requires from <= |s| && KeyedAt(s, key, k, from)
    ensures FindFrom(KeyedRun(key, k), s, from).Some?
    ensures GroupValue(FindFrom(KeyedRun(key, k), s, from).value, 1) == RunAfter(s, key, k, from)
  {
    MatchKeyedRun(key, k, s, from);
  }

  lemma {:induction false} FindKeyedRunFrom(key: string, k: CharClass, s: string, from: nat)
    requires from <= |s|
    ensures var f := FindFrom(KeyedRun(key, k), s, from);
            var p := FirstKeyedFrom(s, key, k, from);
            (f.Some? <==> p.Some?)
            && (p.Some? ==> p.value + |key| <= |s| && GroupValue(f.value, 1) == RunAfter(s, key, k, p.value))
    decreases |s| - from
  {
    if KeyedAt(s, key, k, from) {
      FindKeyedRunHere(key, k, s, from);
    } else {
      MatchKeyedRun(key, k, s, from);
      if from < |s| {
        FindKeyedRunFrom(key, k, s, from + 1);
      }
    }
  }

  /** `Regex("key(k+)").find(s)?.groupValues?.get(1)` is the reference reading. */
  lemma FindKeyedRun(key: string, k: CharClass, s: string)
    ensures FindGroup(KeyedRun(key, k), s, 1) == KeyedValue(s, key, k)
  {
    FindKeyedRunFrom(key, k, s, 0);
  }

  /** A digit run that is found parses to a value that is not negative, or not at all. */
  lemma KeyedDigitsNonNegative(key: string, s: string)
    ensures var v := FindGroup(KeyedRun(key, Digit), s, 1);
            v.Some? ==> AllDigits(v.value) && (ToIntOrNull(v.value).Some? ==> ToIntOrNull(v.value).value >= 0)
  {
    FindKeyedRun(key, Digit, s);
  }

  // ----- key(a|b) -----

  /** `key(a|b)`: a literal followed by one of two captured literals, `a` tried first
      (`metered=(true|false)`). */
  function KeyedChoice(key: string, a: string, b: string): Pattern
  {
    [Lit(key), Group(1, [Alt([Lit(a), Lit(b)])])]
  }

  /** What `key(a|b)` captures when it matches at `p`. */
  function ChoiceAt(s: string, key: string, a: string, b: string, p: nat): Option<string>
  {
    if !OccursAt(s, key, p) then None
    else if OccursAt(s, a, p + |key|) then Some(a)
    else if OccursAt(s, b, p + |key|) then Some(b)
    else None
  }

  /** The reference reading of `key(a|b)`: the choice at the first position at or after `from` that
      has one. */
  function ChoiceFrom(s: string, key: string, a: string, b: string, from: nat): Option<string>
    requires from <= |s|
    decreases |s| - from
  {
    if ChoiceAt(s, key, a, b, from).Some? then ChoiceAt(s, key, a, b, from)
    else if from == |s| then None
    else ChoiceFrom(s, key, a, b, from + 1)
  }

  /** `(a|b)` as group 1 opened at `q`: `a` when it occurs at `q`, else `b` when it does. */
  lemma MatchChoiceGroup(a: string, b: string, s: string, q: nat)
    requires q <= |s|
    ensures var r := Match([Alt([Lit(a), Lit(b)]), Close(1, q)], s, q, map[]);
            && (OccursAt(s, a, q) ==> r.Some? && r.value.groups == map[1 := a])
            && (!OccursAt(s, a, q) && OccursAt(s, b, q) ==> r.Some? && r.value.groups == map[1 := b])
            && (!OccursAt(s, a, q) && !OccursAt(s, b, q) ==> r.None?)
  {
    var after := [Close(1, q)];
    assert [Alt([Lit(a), Lit(b)]), Close(1, q)][1..] == after;
    assert Match([Alt([Lit(a), Lit(b)]), Close(1, q)], s, q, map[]) ==
           FirstAlternative([Lit(a), Lit(b)], after, s, q, map[]);
    assert [Lit(a), Lit(b)][1..] == [Lit(b)];
    assert [Lit(b)][1..] == [];
    MatchLitClose(a, s, q, map[]);
    MatchLitClose(b, s, q, map[]);
    assert FirstAlternative([Lit(b)], after, s, q, map[]) == Match([Lit(b)] + after, s, q, map[]);
  }

  /** A literal at `q`, captured as group 1 opened at `q`. */
  lemma MatchLitClose(t: string, s: string, q: nat, g: map<nat, string>)
    requires q <= |s|
    ensures Match([Lit(t)] + [Close(1, q)], s, q, g) ==
              if OccursAt(s, t, q) then Some(State(q + |t|, g[1 := t])) else None
  {
    assert ([Lit(t)] + [Close(1, q)])[0] == Lit(t);
    assert ([Lit(t)] + [Close(1, q)])[1..] == [Close(1, q)];
    assert [Close(1, q)][1..] == [];
    if OccursAt(s, t, q) {
      assert Match([Close(1, q)], s, q + |t|, g) == Match([], s, q + |t|, g[1 := s[q..q + |t|]]);
    }
  }

  lemma MatchKeyedChoice(key: string, a: string, b: string, s: string, p: nat)
    requires p <= |s|
    ensures var r := Match(KeyedChoice(key, a, b), s, p, map[]);
            var c := ChoiceAt(s, key, a, b, p);
            (r.Some? <==> c.Some?) && (r.Some? ==> r.value.groups == map[1 := c.value])
  {
    var pat := KeyedChoice(key, a, b);
    assert pat[0] == Lit(key);
    assert pat[1..] == [Group(1, [Alt([Lit(a), Lit(b)])])];
    if OccursAt(s, key, p) {
      var q := p + |key|;
      var alt := [Alt([Lit(a), Lit(b)])];
      assert [Group(1, alt)][1..] == [];
      assert alt + ([Close(1, q)] + []) == [Alt([Lit(a), Lit(b)]), Close(1, q)];
      assert Match(pat, s, p, map[]) == Match([Group(1, alt)], s, q, map[]);
      MatchChoiceGroup(a, b, s, q);
    }
  }

  lemma {:induction false} FindKeyedChoiceFrom(key: string, a: string, b: string, s: string, from: nat)
    requires from <= |s|
    ensures var f := FindFrom(KeyedChoice(key, a, b), s, from);
            var c := ChoiceFrom(s, key, a, b, from);
            (f.Some? <==> c.Some?) && (f.Some? ==> GroupValue(f.value, 1) == c.value)
    decreases |s| - from
  {
    MatchKeyedChoice(key, a, b, s, from);
    if ChoiceAt(s, key, a, b, from).None? && from < |s| {
      FindKeyedChoiceFrom(key, a, b, s, from + 1);
    }
  }

  /** `Regex("key(a|b)").find(s)?.groupValues?.get(1)` is the reference reading. */
  lemma FindKeyedChoice(key: string, a: string, b: string, s: string)
    ensures FindGroup(KeyedChoice(key, a, b), s, 1) == ChoiceFrom(s, key, a, b, 0)
  {
    FindKeyedChoiceFrom(key, a, b, s, 0);
  }

  /** `key + a` occurs exactly where `key` occurs with `a` right after it. */
  lemma OccursAtConcat(s: string, key: string, a: string, p: nat)
    ensures OccursAt(s, key + a, p) <==> OccursAt(s, key, p) && OccursAt(s, a, p + |key|)
  {
    if OccursAt(s, key, p) && OccursAt(s, a, p + |key|) {
      assert s[p..p + |key + a|] == s[p..p + |key|] + s[p + |key|..p + |key| + |a|];
    }
    if OccursAt(s, key + a, p) {
      assert s[p..p + |key|] == (key + a)[..|key|];
      assert s[p + |key|..p + |key| + |a|] == (key + a)[|key|..];
    }
  }

  /** The choice read is one that occurs after `key` in the text. */
  lemma {:induction false} ChoiceFromOccurs(s: string, key: string, a: string, b: string, from: nat)
    requires from <= |s|
    ensures var c := ChoiceFrom(s, key, a, b, from);
            c.Some? ==> exists p: nat :: OccursAt(s, key + c.value, p)
    decreases |s| - from
  {
    var c := ChoiceAt(s, key, a, b, from);
    if c.Some? {
      OccursAtConcat(s, key, c.value, from);
    } else if from < |s| {
      ChoiceFromOccurs(s, key, a, b, from + 1);
    }
  }

  /** Where `key + a` occurs at or after `from` and `key + b` does not, the choice read is `a`. */
  lemma {:induction false} ChoiceFromOnlyA(s: string, key: string, a: string, b: string, from: nat, j: nat)
    requires from <= j && OccursAt(s, key + a, j)
    requires forall p: nat :: !OccursAt(s, key + b, p)
    ensures from <= |s| && ChoiceFrom(s, key, a, b, from) == Some(a)
    decreases j - from
  {
    OccursAtConcat(s, key, a, from);
    OccursAtConcat(s, key, b, from);
    if from < j {
      OccursAtConcat(s, key, a, j);
      ChoiceFromOnlyA(s, key, a, b, from + 1, j);
    }
  }

  /** `key(a|b)` captures `a` only where `key + a` occurs, and always does where `key + a` occurs and
      `key + b` does not. */
  lemma KeyedChoiceLiteral(key: string, a: string, b: string, s: string)
    ensures FindGroup(KeyedChoice(key, a, b), s, 1) == Some(a) ==> a == b || Contains(s, key + a)
    ensures Contains(s, key + a) && !Contains(s, key + b) ==> FindGroup(KeyedChoice(key, a, b), s, 1) == Some(a)
  {
    FindKeyedChoice(key, a, b, s);
    ChoiceFromOccurs(s, key, a, b, 0);
    ContainsIff(s, key + a);
    ContainsIff(s, key + b);
    if Contains(s, key + a) && !Contains(s, key + b) {
      var j: nat :| OccursAt(s, key + a, j);
      ChoiceFromOnlyA(s, key, a, b, 0, j);
    }
  }

  // ----- key(k+)tail -----

  /** `key(k+)tail`, where `tail` starts with a character outside `k` (`lease (\d+) seconds`). */
  function KeyedRunThen(key: string, k: CharClass, tail: string): Pattern
  {
    [Lit(key), Group(1, [Plus(k)]), Lit(tail)]
  }

  /** A non-empty text all of whose characters are of class `k`. */
  predicate RunOf(v: string, k: CharClass)
  {
    |v| >= 1 && forall q :: 0 <= q < |v| ==> InClass(v[q], k)
  }

  /** Backing off inside a run of class `k` never lets `tail` match, since `tail` starts outside `k`. */
  lemma {:induction false} LongestInsideRun(tail: string, k: CharClass, s: string, q: nat, m: nat, n: nat)
    requires |tail| > 0 && !InClass(tail[0], k)
    requires 1 <= m < n && q + n <= |s|
    requires forall j :: q <= j < q + n ==> InClass(s[j], k)
    ensures Longest([Close(1, q), Lit(tail)], s, q, 1, m, map[]).None?
    decreases m
  {
    var after := [Close(1, q), Lit(tail)];
    assert after[1..] == [Lit(tail)];
    assert [Lit(tail)][1..] == [];
    if q + m + |tail| <= |s| {
      assert s[q + m..q + m + |tail|][0] == s[q + m];
    }
    assert !OccursAt(s, tail, q + m);
    assert Match(after, s, q + m, map[]).None?;
    if m > 1 {
      LongestInsideRun(tail, k, s, q, m - 1, n);
    }
  }

  /** Where `(k+)tail` matches at `q`, a run of `k` starts at `q` and the group is the whole run. */
  lemma MatchRunThen(k: CharClass, tail: string, s: string, q: nat)
    requires q <= |s|
    requires |tail| > 0 && !InClass(tail[0], k)
    ensures var r := Match([Group(1, [Plus(k)]), Lit(tail)], s, q, map[]);
            var n := RunLength(s, q, k, None);
            (r.Some? <==> n >= 1 && OccursAt(s, tail, q + n))
            && (r.Some? ==> r.value.groups == map[1 := s[q..q + n]])
  {
    var after := [Close(1, q), Lit(tail)];
    var items := [Plus(k)] + after;
    assert [Group(1, [Plus(k)]), Lit(tail)][1..] == [Lit(tail)];
    assert [Plus(k)] + ([Close(1, q)] + [Lit(tail)]) == items;
    assert Match([Group(1, [Plus(k)]), Lit(tail)], s, q, map[]) == Match(items, s, q, map[]);
    assert items[0] == Run(k, 1, None, false);
    assert items[1..] == after;
    var n := RunLength(s, q, k, None);
    if n >= 1 {
      assert Match(items, s, q, map[]) == Longest(after, s, q, 1, n, map[]);
      MatchCloseLit(q, tail, s, q + n, map[]);
      if n > 1 {
        LongestInsideRun(tail, k, s, q, n - 1, n);
      }
    }
  }

  /** A group closed at `x`, then a literal. */
  lemma MatchCloseLit(q: nat, tail: string, s: string, x: nat, g: map<nat, string>)
    requires q <= x <= |s|
    ensures Match([Close(1, q), Lit(tail)], s, x, g) ==
              if OccursAt(s, tail, x) then Some(State(x + |tail|, g[1 := s[q..x]])) else None
  {
    assert [Close(1, q), Lit(tail)][1..] == [Lit(tail)];
    assert [Lit(tail)][1..] == [];
    var h := g[1 := s[q..x]];
    assert Match([Close(1, q), Lit(tail)], s, x, g) == Match([Lit(tail)], s, x, h);
    if OccursAt(s, tail, x) {
      assert Match([Lit(tail)], s, x, h) == Match([], s, x + |tail|, h);
    }
  }

  /** Where `key(k+)tail` matches, `key` is followed by a run of `k` and the group is the whole run. */
  lemma MatchKeyedRunThen(key: string, k: CharClass, tail: string, s: string, p: nat)
    requires p <= |s|
    requires |tail| > 0 && !InClass(tail[0], k)
    ensures var r := Match(KeyedRunThen(key, k, tail), s, p, map[]);
            r.Some? ==> KeyedAt(s, key, k, p) && r.value.groups == map[1 := RunAfter(s, key, k, p)]
  {
    var pat := KeyedRunThen(key, k, tail);
    assert pat[0] == Lit(key);
    assert pat[1..] == [Group(1, [Plus(k)]), Lit(tail)];
    if OccursAt(s, key, p) {
      var q := p + |key|;
      assert Match(pat, s, p, map[]) == Match([Group(1, [Plus(k)]), Lit(tail)], s, q, map[]);
      MatchRunThen(k, tail, s, q);
    }
  }

  /** The group `key(k+)tail` captures is a non-empty run of class `k`, and there is none without `key`. */
  lemma FindKeyedRunThen(key: string, k: CharClass, tail: string, s: string)
    requires |tail| > 0 && !InClass(tail[0], k)
    ensures var v := FindGroup(KeyedRunThen(key, k, tail), s, 1);
            (v.Some? ==> RunOf(v.value, k)) && (!Contains(s, key) ==> v.None?)
  {
    var pat := KeyedRunThen(key, k, tail);
    var f := Find(pat, s);
    if f.Some? {
      FindFromSpec(pat, s, 0);
      var p := f.value.start;
      MatchKeyedRunThen(key, k, tail, s, p);
      var q := p + |key|;
      assert RunLength(s, q, k, None) >= 1;
    }
    if !Contains(s, key) {
      assert pat == [Lit(key)] + pat[1..];
      FindWithoutLit(key, pat[1..], s);
    }
  }

  /** Every value `findAll` reads with `key(k+)` is a non-empty run of class `k`. */
  lemma {:induction false} FindAllKeyedRun(key: string, k: CharClass, s: string, from: nat)
    requires from <= |s|
    ensures forall v :: v in FindAllFrom(KeyedRun(key, k), s, from, 1) ==> RunOf(v, k)
    decreases |s| - from
  {
    var pat := KeyedRun(key, k);
    FindKeyedRunFrom(key, k, s, from);
    var f := FindFrom(pat, s, from);
    if f.Some? {
      var p := FirstKeyedFrom(s, key, k, from).value;
      assert RunLength(s, p + |key|, k, None) >= 1;
      assert RunOf(GroupValue(f.value, 1), k);
      if f.value.end > f.value.start {
        FindAllKeyedRun(key, k, s, f.value.end);
      } else if f.value.end < |s| {
        FindAllKeyedRun(key, k, s, f.value.end + 1);
      }
    }
  }

  // ----- Patterns read item by item -----

  /** `k{n}` at the head of the remaining items: exactly `n` characters of class `k`, then the rest. */
  lemma MatchExactlyAt(items: Pattern, i: nat, k: CharClass, n: nat, s: string, p: nat, g: map<nat, string>)
    requires i < |items| && items[i] == Exactly(k, n) && p <= |s|
    ensures Match(items[i..], s, p, g) ==
              if RunLength(s, p, k, Some(n)) == n then Match(items[i + 1..], s, p + n, g) else None
  {
    assert items[i..][0] == items[i];
    assert items[i..][1..] == items[i + 1..];
  }

  /** A literal at the head of the remaining items: the literal, then the rest. */
  lemma MatchLitAt(items: Pattern, i: nat, t: string, s: string, p: nat, g: map<nat, string>)
    requires i < |items| && items[i] == Lit(t) && p <= |s|
    ensures Match(items[i..], s, p, g) == if OccursAt(s, t, p) then Match(items[i + 1..], s, p + |t|, g) else None
  {
    assert items[i..][0] == items[i];
    assert items[i..][1..] == items[i + 1..];
  }

  /** `k+` that ends the pattern: the longest run of `k`. */
  lemma MatchPlusEnd(k: CharClass, s: string, p: nat, g: map<nat, string>)
    requires p <= |s|
    ensures var m := RunLength(s, p, k, None);
            Match([Plus(k)], s, p, g) == if m >= 1 then Some(State(p + m, g)) else None
  {
    var items := [Plus(k)];
    assert items[0] == Run(k, 1, None, false);
    assert items[1..] == [];
    var m := RunLength(s, p, k, None);
    if m >= 1 {
      assert Match([], s, p + m, g) == Some(State(p + m, g));
      assert Match(items, s, p, g) == Longest([], s, p, 1, m, g);
    }
  }

  /** A repetition that matches once more, moving on, continues from there. */
  lemma RepeatOnce(body: Pattern, s: string, p: nat, g: map<nat, string>, next: State)
    requires p <= |s| && Match(body, s, p, g) == Some(next) && next.pos > p
    ensures Repeat(body, s, p, g) == Repeat(body, s, next.pos, next.groups)
  {
  }

  /** A repetition whose body does not match stops where it is. */
  lemma RepeatStops(body: Pattern, s: string, p: nat, g: map<nat, string>)
    requires p <= |s| && Match(body, s, p, g).None?
    ensures Repeat(body, s, p, g) == State(p, g)
  {
  }

  /** A pattern that is one group: its body, then the group's close. */
  lemma MatchSoleGroup(n: nat, body: Pattern, s: string, p: nat, g: map<nat, string>)
    requires p <= |s|
    ensures Match([Group(n, body)], s, p, g) == Match(body + [Close(n, p)], s, p, g)
  {
    assert [Group(n, body)][1..] == [];
    assert [Close(n, p)] + [] == [Close(n, p)];
  }

  /** `k+` that ends group `n` and the pattern: the longest run of `k`, captured from `start`. */
  lemma MatchPlusClose(k: CharClass, n: nat, start: nat, s: string, p: nat, g: map<nat, string>)
    requires start <= p <= |s|
    ensures var m := RunLength(s, p, k, None);
            Match([Plus(k), Close(n, start)], s, p, g) ==
              if m >= 1 then Some(State(p + m, g[n := s[start..p + m]])) else None
  {
    var items := [Plus(k), Close(n, start)];
    assert items[0] == Run(k, 1, None, false);
    assert items[1..] == [Close(n, start)];
    assert [Close(n, start)][1..] == [];
    var m := RunLength(s, p, k, None);
    if m >= 1 {
      assert Match([Close(n, start)], s, p + m, g) == Some(State(p + m, g[n := s[start..p + m]]));
      assert Match(items, s, p, g) == Longest([Close(n, start)], s, p, 1, m, g);
    }
  }

  /** The first position in `from..bound` where `at` holds. */
  function FirstAt(at: nat -> bool, from: nat, bound: nat): (r: Option<nat>)
    ensures r.Some? ==> from <= r.value <= bound && at(r.value)
    ensures forall q :: from <= q <= bound && (r.None? || q < r.value) ==> !at(q)
    decreases bound + 1 - from
  {
    if from > bound then None
    else if at(from) then Some(from)
    else FirstAt(at, from + 1, bound)
  }

  /** A pattern that matches exactly at the positions where `at` holds, capturing `value` there as
      group 1: `find` reports the value at the first such position. */
  lemma {:induction false} FindAt(pat: Pattern, s: string, from: nat, at: nat -> bool, value: nat -> string)
    requires from <= |s|
    requires forall q :: from <= q <= |s| ==> (Match(pat, s, q, map[]).Some? <==> at(q))
    requires forall q :: from <= q <= |s| && at(q) ==> Match(pat, s, q, map[]).value.groups == map[1 := value(q)]
    ensures var f := FindFrom(pat, s, from);
            var p := FirstAt(at, from, |s|);
            (f.Some? <==> p.Some?) && (p.Some? ==> GroupValue(f.value, 1) == value(p.value))
    decreases |s| - from
  {
    if !at(from) && from < |s| {
      FindAt(pat, s, from + 1, at, value);
    }
  }
}
