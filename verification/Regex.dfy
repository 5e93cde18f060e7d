/**
 * The fragment of Python's `re` that the redactor uses.
 *
 * `Ends` is the engine: a backtracking matcher that lists, in the order it tries them, the offsets
 * where a match started at `i` can end; `re` takes the first.  `Lang` says what a pattern denotes,
 * with no order.  The main results are about one `Sub` pass, whatever the pattern:
 *   - it removes every match of its own pattern (`SubLeavesNoMatch`), and
 *   - it creates no match of another pattern (`SubCreatesNoMatch`),
 * provided the replacement is bracketed and no match cuts a word in two.
 */
module Regex {
  import opened Text

  datatype CharClass = CharClass(letters: bool, digits: bool, spaces: bool, extra: string)

  datatype Re =
    | Lit(text: string, ignoreCase: bool)
    | One(cls: CharClass)
    | Times(cls: CharClass, n: nat)
    | AtLeast(cls: CharClass, n: nat)   // greedy
    | Maybe(re: Re)                     // greedy
    | Cat(first: Re, second: Re)
    | Either(left: Re, right: Re)       // left is tried first
    | Boundary                          // \b
    | NotAfterWord                      // (?<!\w)
    | NotBeforeWord                     // (?!\w)

  predicate In(c: char, cls: CharClass) {
    (cls.letters && IsLetter(c)) || (cls.digits && IsDigit(c)) || (cls.spaces && IsSpace(c)) || c in cls.extra
  }

  predicate WordBefore(s: string, i: nat) { 0 < i <= |s| && IsWord(s[i - 1]) }

  predicate WordAt(s: string, i: nat) { i < |s| && IsWord(s[i]) }

  predicate IsBoundary(s: string, i: nat) { WordBefore(s, i) != WordAt(s, i) }

  predicate CutsWord(s: string, i: nat) { WordBefore(s, i) && WordAt(s, i) }

  predicate Same(text: string, window: string, ignoreCase: bool) {
    window == text || (ignoreCase && Lower(window) == Lower(text))
  }

  /** What a pattern denotes: it matches the window `s[i..j]` in the context of `s`. */
  ghost predicate Lang(re: Re, s: string, i: nat, j: nat) {
    i <= j <= |s| &&
    match re
    case Lit(text, ignoreCase) => j - i == |text| && Same(text, s[i..j], ignoreCase)
    case One(cls) => j == i + 1 && In(s[i], cls)
    case Times(cls, n) => j == i + n && forall k :: i <= k < j ==> In(s[k], cls)
    case AtLeast(cls, n) => j >= i + n && forall k :: i <= k < j ==> In(s[k], cls)
    case Maybe(r) => i == j || Lang(r, s, i, j)
    case Cat(a, b) => exists m :: i <= m <= j && Lang(a, s, i, m) && Lang(b, s, m, j)
    case Either(a, b) => Lang(a, s, i, j) || Lang(b, s, i, j)
    case Boundary => i == j && IsBoundary(s, i)
    case NotAfterWord => i == j && !WordBefore(s, i)
    case NotBeforeWord => i == j && !WordAt(s, i)
  }

  // ---------------------------------------------------------------- the engine

  /** The end of the longest run of `cls` from `i`. */
  function RunEnd(cls: CharClass, s: string, i: nat): (e: nat)
    requires i <= |s|
    ensures i <= e <= |s|
    ensures forall k :: i <= k < e ==> In(s[k], cls)
    ensures e < |s| ==> !In(s[e], cls)
    decreases |s| - i
  {
    if i < |s| && In(s[i], cls) then RunEnd(cls, s, i + 1) else i
  }

  /** `hi, hi - 1, .., lo`: a greedy repetition gives back one character at a time. */
  function DownFrom(hi: int, lo: int): (r: seq<nat>)
    requires 0 <= lo
    ensures forall e :: e in r <==> lo <= e <= hi
    ensures AllWithin(r, lo, hi)
    ensures lo <= hi ==> r != [] && r[0] == hi
    decreases hi - lo
  {
    if hi < lo then [] else [hi] + DownFrom(hi - 1, lo)
  }

  predicate AllWithin(ends: seq<nat>, lo: int, hi: int) {
    forall k :: 0 <= k < |ends| ==> lo <= ends[k] <= hi
  }

  function Ends(re: Re, s: string, i: nat): seq<nat>
    requires i <= |s|
    ensures AllWithin(Ends(re, s, i), i, |s|)
    decreases re, 0
  {
    match re
    case Lit(text, ignoreCase) =>
      if i + |text| <= |s| && Same(text, s[i..i + |text|], ignoreCase) then [i + |text|] else []
    case One(cls) => if i < |s| && In(s[i], cls) then [i + 1] else []
    case Times(cls, n) => if i + n <= RunEnd(cls, s, i) then [i + n] else []
    case AtLeast(cls, n) => DownFrom(RunEnd(cls, s, i), i + n)
    case Maybe(r) => Ends(r, s, i) + [i]
    case Cat(a, b) => EndsFromAll(b, s, i, Ends(a, s, i))
    case Either(a, b) => Ends(a, s, i) + Ends(b, s, i)
    case Boundary => if IsBoundary(s, i) then [i] else []
    case NotAfterWord => if WordBefore(s, i) then [] else [i]
    case NotBeforeWord => if WordAt(s, i) then [] else [i]
  }

  function EndsFromAll(re: Re, s: string, i: nat, starts: seq<nat>): seq<nat>
    requires AllWithin(starts, i, |s|)
    ensures AllWithin(EndsFromAll(re, s, i, starts), i, |s|)
    decreases re, 1, starts
  {
    if starts == [] then []
    else Ends(re, s, starts[0]) + EndsFromAll(re, s, i, starts[1..])
  }

  /** The engine explores exactly the language: it invents no end and misses none. */
  lemma {:induction false} EngineIsLang(re: Re, s: string, i: nat, e: nat)
    requires i <= |s|
    ensures e in Ends(re, s, i) <==> Lang(re, s, i, e)
    decreases re, 0
  {
    match re
    case Lit(text, ignoreCase) =>
    case One(cls) =>
    case Times(cls, n) =>
    case AtLeast(cls, n) =>
    case Maybe(r) => EngineIsLang(r, s, i, e);
    case Cat(a, b) =>
      EndsFromAllIsLang(b, s, i, Ends(a, s, i), e);
      forall m | i <= m <= |s|
        ensures m in Ends(a, s, i) <==> Lang(a, s, i, m)
      {
        EngineIsLang(a, s, i, m);
      }
    case Either(a, b) =>
      EngineIsLang(a, s, i, e);
      EngineIsLang(b, s, i, e);
    case Boundary =>
    case NotAfterWord =>
    case NotBeforeWord =>
  }

  lemma {:induction false} EndsFromAllIsLang(re: Re, s: string, i: nat, starts: seq<nat>, e: nat)
    requires AllWithin(starts, i, |s|)
    ensures e in EndsFromAll(re, s, i, starts) <==> exists m :: m in starts && Lang(re, s, m, e)
    decreases re, 1, starts
  {
    if starts != [] {
      assert starts == [starts[0]] + starts[1..];
      EngineIsLang(re, s, starts[0], e);
      EndsFromAllIsLang(re, s, i, starts[1..], e);
    }
  }

  // ---------------------------------------------------------------- search and substitute

  datatype Found = Nowhere | At(start: nat, end: nat)

  /** The leftmost match at or after `from`, with the end the engine tries first. */
  function Search(re: Re, s: string, from: nat): (f: Found)
    requires from <= |s|
    ensures f.At? ==> from <= f.start <= f.end <= |s|
    decreases |s| - from
  {
    var ends := Ends(re, s, from);
    if ends != [] then assert ends[0] in ends; At(from, ends[0])
    else if from == |s| then Nowhere
    else Search(re, s, from + 1)
  }

  ghost predicate StartsAt(re: Re, s: string, i: nat) {
    exists j :: Lang(re, s, i, j)
  }

  ghost predicate NoMatch(re: Re, s: string) {
    forall i, j :: !Lang(re, s, i, j)
  }

  lemma LangWithin(re: Re, s: string, i: nat, j: nat)
    ensures Lang(re, s, i, j) ==> i <= j <= |s|
  {
  }

  lemma {:induction false} SearchIsLeftmost(re: Re, s: string, from: nat)
    requires from <= |s|
    ensures var f := Search(re, s, from);
            && (f.At? ==> Lang(re, s, f.start, f.end))
            && (forall i :: from <= i && (f.At? ==> i < f.start) ==> !StartsAt(re, s, i))
    decreases |s| - from
  {
    hide Ends, Lang;
    var ends := Ends(re, s, from);
    forall e: nat ensures e in ends <==> Lang(re, s, from, e) { EngineIsLang(re, s, from, e); }
    if ends != [] {
      assert ends[0] in ends;
    } else {
      assert !StartsAt(re, s, from);
      if from < |s| {
        SearchIsLeftmost(re, s, from + 1);
      } else {
        forall i: nat, j: nat | from < i ensures !Lang(re, s, i, j) { LangWithin(re, s, i, j); }
      }
    }
  }

  /** `re.sub` from offset `from` on, for a pattern that cannot match the empty string. */
  function SubFrom(re: Re, replacement: string, s: string, from: nat): string
    requires from <= |s|
    decreases |s| - from
  {
    match Search(re, s, from)
    case Nowhere => s[from..]
    case At(b, e) =>
      if e == from then s[from..]
      else s[from..b] + replacement + SubFrom(re, replacement, s, e)
  }

  function Sub(re: Re, replacement: string, s: string): string {
    SubFrom(re, replacement, s, 0)
  }

  datatype Span = Span(start: nat, end: nat)

  /** The matches that the pass replaces, left to right. */
  function MatchesFrom(re: Re, s: string, from: nat): (spans: seq<Span>)
    requires from <= |s|
    ensures forall k :: 0 <= k < |spans| ==> from <= spans[k].start <= spans[k].end <= |s|
    decreases |s| - from
  {
    match Search(re, s, from)
    case Nowhere => []
    case At(b, e) => if e == from then [] else [Span(b, e)] + MatchesFrom(re, s, e)
  }

  function Matches(re: Re, s: string): seq<Span> { MatchesFrom(re, s, 0) }

  /** No match overlaps the window from `i` to `j`. */
  predicate Untouched(spans: seq<Span>, i: nat, j: nat) {
    forall k :: 0 <= k < |spans| ==> spans[k].end <= i || j <= spans[k].start
  }

  predicate EndsMatch(spans: seq<Span>, i: nat) {
    exists k :: 0 <= k < |spans| && spans[k].end == i
  }

  /** How far replacements of this width move what stands at `i`. */
  function Shift(spans: seq<Span>, width: nat, i: nat): int {
    if spans == [] || i < spans[0].end then 0
    else width - (spans[0].end - spans[0].start) + Shift(spans[1..], width, i)
  }

  // ---------------------------------------------------------------- facts read off a pattern

  /** Every match is at least this long. */
  function MinLength(re: Re): nat {
    match re
    case Lit(text, _) => |text|
    case One(_) => 1
    case Times(_, n) => n
    case AtLeast(_, n) => n
    case Maybe(_) => 0
    case Cat(a, b) => MinLength(a) + MinLength(b)
    case Either(a, b) => if MinLength(a) < MinLength(b) then MinLength(a) else MinLength(b)
    case _ => 0
  }

  /** No match contains `c`. */
  predicate Avoids(re: Re, c: char) {
    match re
    case Lit(text, _) => c !in text && !IsLetter(c)
    case One(cls) => !In(c, cls)
    case Times(cls, _) => !In(c, cls)
    case AtLeast(cls, _) => !In(c, cls)
    case Maybe(r) => Avoids(r, c)
    case Cat(a, b) => Avoids(a, c) && Avoids(b, c)
    case Either(a, b) => Avoids(a, c) && Avoids(b, c)
    case _ => true
  }

  /** The only assertions are `\b`. */
  predicate OnlyBoundaries(re: Re) {
    match re
    case Maybe(r) => OnlyBoundaries(r)
    case Cat(a, b) => OnlyBoundaries(a) && OnlyBoundaries(b)
    case Either(a, b) => OnlyBoundaries(a) && OnlyBoundaries(b)
    case NotAfterWord => false
    case NotBeforeWord => false
    case _ => true
  }

  /** There are no assertions: a match depends on its own characters alone. */
  predicate Bare(re: Re) {
    match re
    case Maybe(r) => Bare(r)
    case Cat(a, b) => Bare(a) && Bare(b)
    case Either(a, b) => Bare(a) && Bare(b)
    case Boundary => false
    case NotAfterWord => false
    case NotBeforeWord => false
    case _ => true
  }

  /** Every match contains a character of `cls`. */
  predicate Needs(re: Re, cls: CharClass) {
    match re
    case Lit(text, ignoreCase) => !ignoreCase && exists c :: c in text && In(c, cls)
    case One(c) => Within(c, cls)
    case Times(c, n) => n > 0 && Within(c, cls)
    case AtLeast(c, n) => n > 0 && Within(c, cls)
    case Cat(a, b) => Needs(a, cls) || Needs(b, cls)
    case Either(a, b) => Needs(a, cls) && Needs(b, cls)
    case _ => false
  }

  /** Both ends of a match are asserted not to lie inside a word. */
  predicate Fenced(re: Re) { FencedLeft(re) && FencedRight(re) }

  predicate FencedLeft(re: Re) {
    re.Boundary? || re.NotAfterWord? || (re.Cat? && FencedLeft(re.first))
  }

  predicate FencedRight(re: Re) {
    re.Boundary? || re.NotBeforeWord? || (re.Cat? && FencedRight(re.second))
  }

  predicate Within(c: CharClass, d: CharClass) {
    (c.letters ==> d.letters) && (c.digits ==> d.digits) && (c.spaces ==> d.spaces) &&
    forall x :: x in c.extra ==> x in d.extra
  }

  /** `parts` one after the other, then `last`. */
  function Chain(parts: seq<Re>, last: Re): Re {
    if parts == [] then last else Cat(parts[0], Chain(parts[1..], last))
  }

  /** Free of brackets, and asserting nothing but `\b`. */
  predicate Plain(re: Re) { Avoids(re, '[') && Avoids(re, ']') && OnlyBoundaries(re) }

  lemma {:induction false} ChainPlain(parts: seq<Re>, last: Re)
    requires Plain(last) && forall r :: r in parts ==> Plain(r)
    ensures Plain(Chain(parts, last))
  {
    if parts != [] {
      assert Plain(parts[0]);
      ChainPlain(parts[1..], last);
    }
  }

  lemma {:induction false} ChainAvoids(parts: seq<Re>, last: Re, c: char)
    requires Avoids(last, c) && forall r :: r in parts ==> Avoids(r, c)
    ensures Avoids(Chain(parts, last), c)
  {
    if parts != [] {
      assert Avoids(parts[0], c);
      ChainAvoids(parts[1..], last, c);
    }
  }

  lemma {:induction false} ChainKeeps(parts: seq<Re>, last: Re, k: nat, cls: CharClass)
    requires k < |parts|
    ensures MinLength(Chain(parts, last)) >= MinLength(parts[k])
    ensures Needs(parts[k], cls) ==> Needs(Chain(parts, last), cls)
    ensures FencedRight(last) ==> FencedRight(Chain(parts, last))
  {
    if k > 0 {
      ChainKeeps(parts[1..], last, k - 1, cls);
    } else if |parts| > 1 {
      ChainKeeps(parts[1..], last, 0, cls);
    }
  }

  /** `\b parts \b` */
  function Bounded(parts: seq<Re>): Re { Cat(Boundary, Chain(parts, Boundary)) }

  lemma BoundedShape(parts: seq<Re>, k: nat, cls: CharClass)
    requires forall r :: r in parts ==> Plain(r)
    requires k < |parts| && Needs(parts[k], cls) && MinLength(parts[k]) > 0
    ensures var re := Bounded(parts); Fenced(re) && Plain(re) && Needs(re, cls) && MinLength(re) > 0
  {
    ChainPlain(parts, Boundary);
    ChainKeeps(parts, Boundary, k, cls);
  }

  lemma Split(a: Re, b: Re, s: string, i: nat, j: nat) returns (m: nat)
    requires Lang(Cat(a, b), s, i, j)
    ensures i <= m <= j && Lang(a, s, i, m) && Lang(b, s, m, j)
  {
    m :| i <= m <= j && Lang(a, s, i, m) && Lang(b, s, m, j);
  }

  lemma Concatenate(a: Re, b: Re, s: string, i: nat, m: nat, j: nat)
    requires Lang(a, s, i, m) && Lang(b, s, m, j)
    ensures Lang(Cat(a, b), s, i, j)
  {
  }

  lemma LiteralStarts(text: string, s: string, i: nat, j: nat)
    requires Lang(Lit(text, true), s, i, j) && text != ""
    ensures i < j && LowerChar(s[i]) == LowerChar(text[0])
  {
  }

  lemma {:induction false} MatchIsLong(re: Re, s: string, i: nat, j: nat)
    requires Lang(re, s, i, j)
    ensures j >= i + MinLength(re)
  {
    match re
    case Cat(a, b) =>
      var m :| i <= m <= j && Lang(a, s, i, m) && Lang(b, s, m, j);
      MatchIsLong(a, s, i, m);
      MatchIsLong(b, s, m, j);
    case Either(a, b) =>
      if Lang(a, s, i, j) { MatchIsLong(a, s, i, j); } else { MatchIsLong(b, s, i, j); }
    case _ =>
  }

  lemma {:induction false} MatchAvoids(re: Re, c: char, s: string, i: nat, j: nat, k: nat)
    requires Lang(re, s, i, j) && Avoids(re, c) && i <= k < j
    ensures s[k] != c
  {
    match re
    case Lit(text, ignoreCase) =>
      assert s[i..j][k - i] == s[k];
      assert Lower(s[i..j])[k - i] == LowerChar(s[k]);
    case Maybe(r) => MatchAvoids(r, c, s, i, j, k);
    case Cat(a, b) =>
      var m :| i <= m <= j && Lang(a, s, i, m) && Lang(b, s, m, j);
      if k < m { MatchAvoids(a, c, s, i, m, k); } else { MatchAvoids(b, c, s, m, j, k); }
    case Either(a, b) =>
      if Lang(a, s, i, j) { MatchAvoids(a, c, s, i, j, k); } else { MatchAvoids(b, c, s, i, j, k); }
    case _ =>
  }

  lemma {:induction false} MatchNeeds(re: Re, cls: CharClass, s: string, i: nat, j: nat) returns (k: nat)
    requires Lang(re, s, i, j) && Needs(re, cls)
    ensures i <= k < j && In(s[k], cls)
  {
    match re
    case Lit(text, _) =>
      var c :| c in text && In(c, cls);
      var x :| 0 <= x < |text| && text[x] == c;
      k := i + x;
      assert s[i..j][x] == s[k];
    case Cat(a, b) =>
      var m :| i <= m <= j && Lang(a, s, i, m) && Lang(b, s, m, j);
      if Needs(a, cls) { k := MatchNeeds(a, cls, s, i, m); } else { k := MatchNeeds(b, cls, s, m, j); }
    case Either(a, b) =>
      if Lang(a, s, i, j) { k := MatchNeeds(a, cls, s, i, j); } else { k := MatchNeeds(b, cls, s, i, j); }
    case _ => k := i;
  }

  lemma {:induction false} FencedLeftCuts(re: Re, s: string, i: nat, j: nat)
    requires Lang(re, s, i, j) && FencedLeft(re)
    ensures !CutsWord(s, i)
  {
    if re.Cat? {
      var m :| i <= m <= j && Lang(re.first, s, i, m) && Lang(re.second, s, m, j);
      FencedLeftCuts(re.first, s, i, m);
    }
  }

  lemma {:induction false} FencedRightCuts(re: Re, s: string, i: nat, j: nat)
    requires Lang(re, s, i, j) && FencedRight(re)
    ensures !CutsWord(s, j)
  {
    if re.Cat? {
      var m :| i <= m <= j && Lang(re.first, s, i, m) && Lang(re.second, s, m, j);
      FencedRightCuts(re.second, s, m, j);
    }
  }

  lemma FencedCuts(re: Re, s: string, i: nat, j: nat)
    requires Lang(re, s, i, j) && Fenced(re)
    ensures !CutsWord(s, i) && !CutsWord(s, j)
  {
    FencedLeftCuts(re, s, i, j);
    FencedRightCuts(re, s, i, j);
  }

  /** A pattern that needs a class finds nothing in a text without it. */
  lemma NeedsAbsent(re: Re, cls: CharClass, s: string)
    requires Needs(re, cls)
    requires forall k :: 0 <= k < |s| ==> !In(s[k], cls)
    ensures NoMatch(re, s)
  {
    forall i: nat, j: nat ensures !Lang(re, s, i, j) {
      if Lang(re, s, i, j) { var k := MatchNeeds(re, cls, s, i, j); }
    }
  }

  // ---------------------------------------------------------------- locality

  /** The window of `w` from `i`, `n` long, is the window of `s` shifted by `d`. */
  ghost predicate SameWindow(w: string, i: nat, n: nat, s: string, d: int) {
    0 <= i + d && i + n <= |w| && i + n + d <= |s| &&
    forall z {:trigger w[z]} :: i <= z < i + n ==> w[z] == s[z + d]
  }

  /** `w[i..i+n]` is copied from `s`, `d` further on, and has no boundary at its ends that `s` lacks. */
  ghost predicate CopiedFrom(w: string, i: nat, n: nat, s: string, d: int) {
    && SameWindow(w, i, n, s, d)
    && (IsBoundary(w, i) ==> IsBoundary(s, i + d))
    && (IsBoundary(w, i + n) ==> IsBoundary(s, i + n + d))
  }

  /**
   * A match depends only on its window, and on the word boundaries at the window's two ends if the
   * pattern asks for any.
   */
  lemma {:induction false} Transfer(re: Re, w: string, i: nat, n: nat, s: string, d: int, x: nat, y: nat)
    requires SameWindow(w, i, n, s, d) && n > 0 && OnlyBoundaries(re)
    requires CopiedFrom(w, i, n, s, d) || Bare(re)
    requires i <= x <= y <= i + n && Lang(re, w, x, y)
    ensures Lang(re, s, x + d, y + d)
  {
    assert forall z {:trigger s[z]} :: x + d <= z < y + d ==> s[z] == w[z - d];
    match re
    case Lit(text, ignoreCase) =>
      assert w[x..y] == s[x + d..y + d];
    case Maybe(r) =>
      if x != y { Transfer(r, w, i, n, s, d, x, y); }
    case Cat(a, b) =>
      var m :| x <= m <= y && Lang(a, w, x, m) && Lang(b, w, m, y);
      Transfer(a, w, i, n, s, d, x, m);
      Transfer(b, w, i, n, s, d, m, y);
    case Either(a, b) =>
      if Lang(a, w, x, y) { Transfer(a, w, i, n, s, d, x, y); } else { Transfer(b, w, i, n, s, d, x, y); }
    case Boundary =>
      if i < x < i + n { assert w[x - 1] == s[x - 1 + d]; }
    case _ =>
  }

  // ---------------------------------------------------------------- one substitution pass

  ghost predicate Bracketed(replacement: string) {
    && |replacement| >= 2 && replacement[0] == '[' && replacement[|replacement| - 1] == ']'
  }

  ghost predicate BracketFree(w: string, i: nat, n: nat) {
    i + n <= |w| && forall z :: i <= z < i + n ==> w[z] != '[' && w[z] != ']'
  }

  /** The state of a pass: `done` is what has been written when the scan stands at `from`. */
  ghost predicate ScanAt(s: string, from: nat, done: string) {
    from <= |s| &&
    if from == 0 then done == "" else
      done != "" && done[|done| - 1] == ']' && !CutsWord(s, from)
  }

  /**
   * Where a bracket-free window of the output comes from: either it lies inside a replacement, or it
   * is copied from a gap between matches.
   */
  lemma {:induction false} Locate(re: Re, replacement: string, s: string, from: nat, done: string,
                                  w: string, i: nat, n: nat)
    returns (copied: bool, d: int)
    requires ScanAt(s, from, done) && Fenced(re) && MinLength(re) > 0 && Bracketed(replacement)
    requires w == done + SubFrom(re, replacement, s, from)
    requires |done| <= i && n > 0 && i + n <= |w| && BracketFree(w, i, n)
    ensures copied ==> 0 <= i + d && CopiedFrom(w, i, n, s, d) && !StartsAt(re, s, i + d)
    ensures copied ==>
      && from <= i + d && Untouched(MatchesFrom(re, s, from), i + d, i + d + n)
      && d == from - |done| - Shift(MatchesFrom(re, s, from), |replacement|, i + d)
    ensures !copied ==> forall z :: i <= z < i + n ==> w[z] in replacement
    decreases |s| - from
  {
    hide SubFrom, Lang, Fenced, MinLength, CutsWord, CopiedFrom, StartsAt, BracketFree, Search, Ends, Untouched,
         Shift, MatchesFrom;
    SubStep(re, replacement, s, from);
    copied, d := true, from - |done|;
    match Search(re, s, from)
    case Nowhere =>
      assert w == done + s[from..|s|] + "";
      InGap(s, from, |s|, done, "", w, i, n);
      MatchesStep(re, s, from, i + d, n);
    case At(b, e) =>
      var gap := s[from..b];
      assert |gap| == b - from;
      var rest := SubFrom(re, replacement, s, e);
      assert w == done + gap + replacement + rest;
      AroundReplacement(gap, done, replacement, rest, w, i, n);
      if i + n <= |done + gap| {
        InGap(s, from, b, done, replacement + rest, w, i, n);
        MatchesStep(re, s, from, i + d, n);
      } else if |done + gap + replacement| <= i {
        copied, d := Locate(re, replacement, s, e, done + gap + replacement, w, i, n);
        if copied { MatchesStep(re, s, from, i + d, n); }
      } else {
        copied := false;
      }
  }

  /** One step of a pass. */
  lemma SubStep(re: Re, replacement: string, s: string, from: nat)
    requires from <= |s| && Fenced(re) && MinLength(re) > 0
    ensures var f := Search(re, s, from);
            && (forall i :: from <= i && (f.At? ==> i < f.start) ==> !StartsAt(re, s, i))
            && (f.Nowhere? ==> SubFrom(re, replacement, s, from) == s[from..])
            && (f.At? ==>
                  && f.start < f.end && !CutsWord(s, f.start) && !CutsWord(s, f.end)
                  && SubFrom(re, replacement, s, from)
                     == s[from..f.start] + replacement + SubFrom(re, replacement, s, f.end))
  {
    SearchIsLeftmost(re, s, from);
    if Search(re, s, from).At? {
      var At(b, e) := Search(re, s, from);
      MatchIsLong(re, s, b, e);
      FencedCuts(re, s, b, e);
    }
  }

  /** A bracket-free window lies wholly before, inside or after a bracketed replacement. */
  lemma AroundReplacement(gap: string, done: string, replacement: string, rest: string, w: string, i: nat, n: nat)
    requires w == done + gap + replacement + rest && Bracketed(replacement)
    requires |done| <= i && n > 0 && BracketFree(w, i, n)
    ensures w == done + gap + (replacement + rest) && (replacement + rest)[0] == '['
    ensures (done + gap + replacement)[|done + gap + replacement| - 1] == ']'
    ensures i + n <= |done + gap| || |done + gap + replacement| <= i ||
            forall z :: i <= z < i + n ==> w[z] in replacement
  {
    var lo, hi := |done + gap|, |done + gap + replacement|;
    assert forall z {:trigger w[z]} :: lo <= z < hi ==> w[z] == replacement[z - lo];
    assert w[lo] == '[' && w[hi - 1] == ']';
  }

  /** `Locate` for a window inside the gap `s[from..b]`; what follows the gap is `tail`. */
  lemma InGap(s: string, from: nat, b: nat, done: string, tail: string, w: string, i: nat, n: nat)
    requires ScanAt(s, from, done) && from <= b <= |s|
    requires w == done + s[from..b] + tail
    requires tail == "" ==> b == |s|
    requires tail != "" ==> tail[0] == '[' && !CutsWord(s, b)
    requires |done| <= i && n > 0 && i + n <= |done| + (b - from)
    ensures i + from - |done| >= 0 && CopiedFrom(w, i, n, s, from - |done|)
  {
  }

  /**
   * The window `s[i..i + n]` is copied to `w`, `d` further on.  What comes before it is a word
   * character as it was, unless a replacement now ends there; what comes after it, if the window
   * ends in a word, is a word character exactly as it was.
   */
  ghost predicate CopiedTo(s: string, i: nat, n: nat, w: string, d: int, afterMatch: bool) {
    && n > 0 && SameWindow(s, i, n, w, d)
    && (WordBefore(w, i + d) <==> WordBefore(s, i) && !afterMatch)
    && (IsWord(s[i + n - 1]) ==> (WordAt(w, i + n + d) <==> WordAt(s, i + n)))
  }

  /** What is written up to a match, its replacement, and the rest. */
  lemma AroundMatch(done: string, gap: string, replacement: string, rest: string)
    requires Bracketed(replacement)
    ensures var next, tail := done + gap + replacement, replacement + rest;
            && done + gap + tail == next + rest && tail != "" && tail[0] == '['
            && |next| == |done| + |gap| + |replacement| && next != "" && next[|next| - 1] == ']'
  {
  }

  /** Where an untouched window of the input goes. */
  lemma {:induction false} Kept(re: Re, replacement: string, s: string, from: nat, done: string,
                                w: string, i: nat, n: nat)
    requires ScanAt(s, from, done) && Fenced(re) && MinLength(re) > 0 && Bracketed(replacement)
    requires w == done + SubFrom(re, replacement, s, from)
    requires from <= i && n > 0 && i + n <= |s| && Untouched(MatchesFrom(re, s, from), i, i + n)
    ensures var spans := MatchesFrom(re, s, from);
            var d := |done| - from + Shift(spans, |replacement|, i);
            CopiedTo(s, i, n, w, d, EndsMatch(spans, i) || (i == from && from > 0))
    decreases |s| - from
  {
    hide SubFrom, Lang, Fenced, MinLength, StartsAt, Search, Ends, CopiedTo, CutsWord, MatchesFrom, Untouched,
         EndsMatch, Shift, Bracketed;
    SubStep(re, replacement, s, from);
    MatchesStep(re, s, from, i, n);
    match Search(re, s, from)
    case Nowhere =>
      assert w == done + s[from..|s|] + "";
      KeptInGap(s, from, |s|, done, "", w, i, n);
    case At(b, e) =>
      var gap, rest := s[from..b], SubFrom(re, replacement, s, e);
      var next, tail := done + gap + replacement, replacement + rest;
      AroundMatch(done, gap, replacement, rest);
      assert done + (gap + replacement + rest) == done + gap + tail;
      if i + n <= b {
        KeptInGap(s, from, b, done, tail, w, i, n);
      } else {
        Kept(re, replacement, s, e, next, w, i, n);
      }
  }

  /** What a first match adds to the others. */
  lemma SpansStep(first: Span, rest: seq<Span>, i: nat, n: nat)
    requires n > 0 && first.end <= i
    ensures var spans := [first] + rest;
            && (Untouched(spans, i, i + n) <==> Untouched(rest, i, i + n))
            && (EndsMatch(spans, i) <==> i == first.end || EndsMatch(rest, i))
            && forall width: nat :: Shift(spans, width, i) == width - (first.end - first.start) + Shift(rest, width, i)
  {
    var spans := [first] + rest;
    assert spans[1..] == rest && spans[0] == first;
    assert forall k :: 0 <= k < |rest| ==> spans[k + 1] == rest[k];
  }

  /** Matches that all start later have nothing to do with a window. */
  lemma SpansAfter(spans: seq<Span>, i: nat, n: nat)
    requires n > 0 && forall k :: 0 <= k < |spans| ==> i + n <= spans[k].start <= spans[k].end
    ensures Untouched(spans, i, i + n) && !EndsMatch(spans, i) && forall width: nat :: Shift(spans, width, i) == 0
  {
  }

  /** An untouched window lies before the first match, or after it and is untouched by the others. */
  lemma MatchesStep(re: Re, s: string, from: nat, i: nat, n: nat)
    requires from <= |s| && n > 0
    ensures var spans, f := MatchesFrom(re, s, from), Search(re, s, from);
            (f.Nowhere? || from == f.end || i + n <= f.start) ==>
              Untouched(spans, i, i + n) && !EndsMatch(spans, i) && forall width: nat :: Shift(spans, width, i) == 0
    ensures var spans, f := MatchesFrom(re, s, from), Search(re, s, from);
            f.At? && from < f.end && f.start < i + n && Untouched(spans, i, i + n) ==> f.end <= i
    ensures var spans, f := MatchesFrom(re, s, from), Search(re, s, from);
            f.At? && from < f.end && f.end <= i ==>
              var rest := MatchesFrom(re, s, f.end);
              && (Untouched(spans, i, i + n) <==> Untouched(rest, i, i + n))
              && (EndsMatch(spans, i) <==> i == f.end || EndsMatch(rest, i))
              && forall width: nat :: Shift(spans, width, i) == width - (f.end - f.start) + Shift(rest, width, i)
  {
    hide Search, Ends, Shift, EndsMatch, Untouched;
    var spans, f := MatchesFrom(re, s, from), Search(re, s, from);
    if f.Nowhere? || from == f.end || i + n <= f.start {
      SpansAfter(spans, i, n);
    } else {
      var first, rest := Span(f.start, f.end), MatchesFrom(re, s, f.end);
      assert spans == [first] + rest;
      if f.end <= i { SpansStep(first, rest, i, n); } else { FirstTouches(first, rest, i, n); }
    }
  }

  lemma FirstTouches(first: Span, rest: seq<Span>, i: nat, n: nat)
    requires i < first.end && first.start < i + n
    ensures !Untouched([first] + rest, i, i + n)
  {
    assert ([first] + rest)[0] == first;
  }

  /** `Kept` for a window inside the gap `s[from..b]`; what follows the gap is `tail`. */
  lemma KeptInGap(s: string, from: nat, b: nat, done: string, tail: string, w: string, i: nat, n: nat)
    requires ScanAt(s, from, done) && from <= b <= |s|
    requires w == done + s[from..b] + tail
    requires tail == "" ==> b == |s|
    requires tail != "" ==> tail[0] == '[' && !CutsWord(s, b)
    requires from <= i && n > 0 && i + n <= b
    ensures CopiedTo(s, i, n, w, |done| - from, i == from && from > 0)
  {
  }

  /** One pass leaves no match of its own pattern, if the replacement itself holds none. */
  lemma SubLeavesNoMatch(re: Re, replacement: string, s: string, cls: CharClass)
    requires Fenced(re) && MinLength(re) > 0 && Bracketed(replacement)
    requires Plain(re)
    requires Needs(re, cls) && forall c :: c in replacement ==> !In(c, cls)
    ensures NoMatch(re, Sub(re, replacement, s))
  {
    var w := Sub(re, replacement, s);
    forall i: nat, j: nat
      ensures !Lang(re, w, i, j)
    {
      if Lang(re, w, i, j) {
        var d := MatchComesFrom(re, re, cls, replacement, s, w, i, j);
      }
    }
  }

  /** A pass of `q` makes no match of `p` that was not there before. */
  lemma SubCreatesNoMatch(q: Re, p: Re, replacement: string, s: string, cls: CharClass)
    requires Fenced(q) && MinLength(q) > 0 && Bracketed(replacement)
    requires MinLength(p) > 0 && Plain(p)
    requires Needs(p, cls) && forall c :: c in replacement ==> !In(c, cls)
    requires NoMatch(p, s)
    ensures NoMatch(p, Sub(q, replacement, s))
  {
    var w := Sub(q, replacement, s);
    forall i: nat, j: nat
      ensures !Lang(p, w, i, j)
    {
      if Lang(p, w, i, j) {
        var d := MatchComesFrom(q, p, cls, replacement, s, w, i, j);
      }
    }
  }

  lemma MatchIsBracketFree(p: Re, w: string, i: nat, j: nat)
    requires Lang(p, w, i, j) && Avoids(p, '[') && Avoids(p, ']')
    ensures BracketFree(w, i, j - i)
  {
  }

  lemma MatchNotInside(p: Re, cls: CharClass, replacement: string, w: string, i: nat, j: nat)
    requires Lang(p, w, i, j) && Needs(p, cls)
    requires forall c :: c in replacement ==> !In(c, cls)
    ensures exists z :: i <= z < j && w[z] !in replacement
  {
    var z := MatchNeeds(p, cls, w, i, j);
  }

  /** A match of `p` in the output `w` of a pass of `q` was in its input too, outside every match of `q`. */
  lemma MatchComesFrom(q: Re, p: Re, cls: CharClass, replacement: string, s: string, w: string, i: nat, j: nat)
    returns (d: int)
    requires Fenced(q) && MinLength(q) > 0 && Bracketed(replacement)
    requires MinLength(p) > 0 && Plain(p)
    requires Needs(p, cls) && forall c :: c in replacement ==> !In(c, cls)
    requires w == Sub(q, replacement, s) && Lang(p, w, i, j)
    ensures 0 <= i + d && Lang(p, s, i + d, j + d) && !StartsAt(q, s, i + d)
  {
    hide Lang, Needs, Avoids, MinLength, OnlyBoundaries, Fenced, Bracketed, In, StartsAt, SameWindow, IsBoundary,
         BracketFree, SubFrom, Untouched, MatchesFrom, Shift, CutsWord;
    MatchIsLong(p, w, i, j);
    MatchIsBracketFree(p, w, i, j);
    MatchNotInside(p, cls, replacement, w, i, j);
    var copied;
    assert w == "" + w;
    copied, d := Locate(q, replacement, s, 0, "", w, i, j - i);
    Transfer(p, w, i, j - i, s, d, i, j);
  }

  /** A pass over a text without a match is the identity. */
  lemma SubIdentity(re: Re, replacement: string, s: string)
    requires NoMatch(re, s)
    ensures Sub(re, replacement, s) == s
  {
    SearchIsLeftmost(re, s, 0);
  }

  lemma SubNonempty(re: Re, replacement: string, s: string)
    requires Bracketed(replacement)
    ensures Sub(re, replacement, s) == "" <==> s == ""
  {
  }

  /** How many replacements a text may hold. */
  ghost function Brackets(s: string): nat { multiset(s)['['] }

  lemma BracketsOf3(a: string, b: string, c: string)
    ensures Brackets(a + b + c) == Brackets(a) + Brackets(b) + Brackets(c)
  {
  }

  lemma BracketsSplit(s: string, from: nat, b: nat, e: nat)
    requires from <= b <= e <= |s|
    ensures Brackets(s[from..]) == Brackets(s[from..b]) + Brackets(s[b..e]) + Brackets(s[e..])
  {
    assert s[from..] == s[from..b] + s[b..e] + s[e..];
    BracketsOf3(s[from..b], s[b..e], s[e..]);
  }

  /** A pass never loses an opening bracket, and gains one at each match: later passes cannot undo it. */
  lemma {:induction false} SubGainsBrackets(re: Re, replacement: string, s: string, from: nat)
    requires from <= |s| && Fenced(re) && MinLength(re) > 0 && Bracketed(replacement) && Avoids(re, '[')
    ensures Brackets(SubFrom(re, replacement, s, from)) >= Brackets(s[from..])
    ensures Search(re, s, from).At? ==> Brackets(SubFrom(re, replacement, s, from)) > Brackets(s[from..])
    decreases |s| - from
  {
    hide SubFrom, Lang, Fenced, MinLength, Avoids, CutsWord, StartsAt, Brackets;
    SubStep(re, replacement, s, from);
    match Search(re, s, from)
    case Nowhere =>
    case At(b, e) =>
      SearchIsLeftmost(re, s, from);
      SubGainsBrackets(re, replacement, s, e);
      MatchHasNoBracket(re, s, b, e);
      BracketedHasBracket(replacement);
      BracketsSplit(s, from, b, e);
      BracketsOf3(s[from..b], replacement, SubFrom(re, replacement, s, e));
  }

  lemma BracketedHasBracket(replacement: string)
    requires Bracketed(replacement)
    ensures Brackets(replacement) > 0
  {
  }

  lemma MatchHasNoBracket(re: Re, s: string, b: nat, e: nat)
    requires Lang(re, s, b, e) && Avoids(re, '[')
    ensures Brackets(s[b..e]) == 0
  {
    if '[' in s[b..e] {
      var k :| 0 <= k < e - b && s[b..e][k] == '[';
      MatchAvoids(re, '[', s, b, e, b + k);
    }
  }

  lemma SubBrackets(re: Re, replacement: string, s: string)
    requires Fenced(re) && MinLength(re) > 0 && Bracketed(replacement) && Avoids(re, '[')
    ensures Brackets(Sub(re, replacement, s)) >= Brackets(s)
    ensures Brackets(Sub(re, replacement, s)) == Brackets(s) ==> NoMatch(re, s)
  {
    SubGainsBrackets(re, replacement, s, 0);
    SearchIsLeftmost(re, s, 0);
    assert s[0..] == s;
    if Search(re, s, 0).Nowhere? {
      forall i: nat, j: nat ensures !Lang(re, s, i, j) {
        if Lang(re, s, i, j) { assert StartsAt(re, s, i); }
      }
    }
  }
}
