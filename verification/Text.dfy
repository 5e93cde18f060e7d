/** Characters, string order, and the few string operations shared by every module. */
module Text {
  predicate IsDigit(c: char) { '0' <= c <= '9' }

  predicate IsLetter(c: char) { 'a' <= c <= 'z' || 'A' <= c <= 'Z' }

  /** The ASCII part of `\w`. */
  predicate IsWord(c: char) { IsLetter(c) || IsDigit(c) || c == '_' }

  /** The ASCII part of `\s`, which for text patterns includes the four separators 0x1c to 0x1f. */
  predicate IsSpace(c: char) { c == ' ' || '\t' <= c <= '\r' || '\U{1c}' <= c <= '\U{1f}' }

  function LowerChar(c: char): char {
    if 'A' <= c <= 'Z' then (c as int + 32) as char else c
  }

  function Lower(s: string): (r: string)
    ensures |r| == |s|
    ensures forall i :: 0 <= i < |s| ==> r[i] == LowerChar(s[i])
  {
    seq(|s|, i requires 0 <= i < |s| => LowerChar(s[i]))
  }

  /** `text` occurs in `s` at offset `i`. */
  predicate OccursAt(text: string, s: string, i: nat) {
    i + |text| <= |s| && s[i..i + |text|] == text
  }

  /** The substring test `text in s`. */
  predicate Contains(s: string, text: string) {
    exists i :: 0 <= i <= |s| && OccursAt(text, s, i)
  }

  /** `str.strip()` leaves something. */
  predicate HasVisible(s: string) {
    exists c :: c in s && !IsSpace(c)
  }

  function StripLeft(s: string): string {
    if s != "" && IsSpace(s[0]) then StripLeft(s[1..]) else s
  }

  function StripRight(s: string): string {
    if s != "" && IsSpace(s[|s| - 1]) then StripRight(s[..|s| - 1]) else s
  }

  function Strip(s: string): string { StripRight(StripLeft(s)) }

  function Join(parts: seq<string>, separator: string): string {
    if parts == [] then ""
    else if |parts| == 1 then parts[0]
    else parts[0] + separator + Join(parts[1..], separator)
  }

  function DigitChar(n: nat): (c: char)
    requires n < 10
    ensures IsDigit(c)
  {
    ('0' as int + n) as char
  }

  function Decimal(n: nat): (r: string)
    ensures r != "" && forall c :: c in r ==> IsDigit(c)
  {
    if n < 10 then [DigitChar(n)] else Decimal(n / 10) + [DigitChar(n % 10)]
  }

  /** The number that digits write. */
  function NumberOf(digits: string): nat
    requires forall k :: 0 <= k < |digits| ==> IsDigit(digits[k])
  {
    if digits == "" then 0
    else
      var n := |digits| - 1;
      assert IsDigit(digits[n]);
      NumberOf(digits[..n]) * 10 + (digits[n] as int - '0' as int)
  }

  /** Lexicographic order by code point: Python's `<=` on strings. */
  predicate StrLe(a: string, b: string) {
    a == "" || (b != "" && (a[0] < b[0] || (a[0] == b[0] && StrLe(a[1..], b[1..]))))
  }

  lemma StrLeTotal(a: string, b: string)
    ensures StrLe(a, b) || StrLe(b, a)
  {
  }

  lemma StrLeAntisymmetric(a: string, b: string)
    requires StrLe(a, b) && StrLe(b, a)
    ensures a == b
  {
  }

  lemma StrLeTransitive(a: string, b: string, c: string)
    requires StrLe(a, b) && StrLe(b, c)
    ensures StrLe(a, c)
  {
  }

  lemma StrLePrefix(prefix: string, a: string, b: string)
    ensures StrLe(prefix + a, prefix + b) <==> StrLe(a, b)
  {
    if prefix == "" {
      assert prefix + a == a && prefix + b == b;
    } else {
      assert (prefix + a)[1..] == prefix[1..] + a && (prefix + b)[1..] == prefix[1..] + b;
      StrLePrefix(prefix[1..], a, b);
    }
  }

  /** Equally long heads that differ decide the comparison. */
  lemma StrLeByHead(a: string, b: string, x: string, y: string)
    requires |a| == |b| && a != b
    ensures StrLe(a + x, b + y) <==> StrLe(a, b)
  {
    assert (a + x)[1..] == a[1..] + x && (b + y)[1..] == b[1..] + y;
    if a[0] == b[0] {
      assert a == [a[0]] + a[1..] && b == [b[0]] + b[1..];
      StrLeByHead(a[1..], b[1..], x, y);
    }
  }
}

/** Sorting by a total order: the result is the only ordered rearrangement of its input. */
module Sorting {
  ghost predicate TotalPreorder<T(!new)>(le: (T, T) -> bool) {
    && (forall a, b :: le(a, b) || le(b, a))
    && (forall a, b, c :: le(a, b) && le(b, c) ==> le(a, c))
  }

  ghost predicate TotalOrder<T(!new)>(le: (T, T) -> bool) {
    TotalPreorder(le) && forall a, b :: le(a, b) && le(b, a) ==> a == b
  }

  ghost predicate Ordered<T(!new)>(xs: seq<T>, le: (T, T) -> bool) {
    forall i, j :: 0 <= i < j < |xs| ==> le(xs[i], xs[j])
  }

  function Insert<T>(x: T, xs: seq<T>, le: (T, T) -> bool): seq<T> {
    if xs == [] || le(x, xs[0]) then [x] + xs else [xs[0]] + Insert(x, xs[1..], le)
  }

  function Sort<T>(xs: seq<T>, le: (T, T) -> bool): seq<T> {
    if xs == [] then [] else Insert(xs[0], Sort(xs[1..], le), le)
  }

  lemma InsertPermutes<T>(x: T, xs: seq<T>, le: (T, T) -> bool)
    ensures multiset(Insert(x, xs, le)) == multiset(xs) + multiset{x}
  {
    if xs != [] && !le(x, xs[0]) {
      InsertPermutes(x, xs[1..], le);
      assert xs == [xs[0]] + xs[1..];
    }
  }

  lemma InsertOrdered<T(!new)>(x: T, xs: seq<T>, le: (T, T) -> bool)
    requires TotalPreorder(le) && Ordered(xs, le)
    ensures Ordered(Insert(x, xs, le), le)
  {
    if xs != [] && !le(x, xs[0]) {
      var rest := Insert(x, xs[1..], le);
      InsertOrdered(x, xs[1..], le);
      InsertPermutes(x, xs[1..], le);
      forall y | y in rest
        ensures le(xs[0], y)
      {
        assert y in multiset(rest);
        assert y == x || y in multiset(xs[1..]);
      }
    }
  }

  lemma NothingIsOrdered<T(!new)>(le: (T, T) -> bool)
    ensures Ordered([], le)
  {
  }

  lemma SortCorrect<T(!new)>(xs: seq<T>, le: (T, T) -> bool)
    requires TotalPreorder(le)
    ensures multiset(Sort(xs, le)) == multiset(xs)
    ensures Ordered(Sort(xs, le), le)
  {
    hide Ordered, TotalPreorder, Insert;
    if xs == [] {
      NothingIsOrdered(le);
    } else {
      SortCorrect(xs[1..], le);
      InsertPermutes(xs[0], Sort(xs[1..], le), le);
      InsertOrdered(xs[0], Sort(xs[1..], le), le);
      assert xs == [xs[0]] + xs[1..];
    }
  }

  lemma WithoutLast<T>(xs: seq<T>)
    requires xs != []
    ensures multiset(xs) == multiset(xs[..|xs| - 1]) + multiset{xs[|xs| - 1]}
  {
    assert xs == xs[..|xs| - 1] + [xs[|xs| - 1]];
  }

  lemma LastIsGreatest<T(!new)>(xs: seq<T>, x: T, le: (T, T) -> bool)
    requires TotalPreorder(le) && Ordered(xs, le) && x in multiset(xs)
    ensures le(x, xs[|xs| - 1])
  {
    var k :| 0 <= k < |xs| && xs[k] == x;
  }

  lemma OrderedInit<T(!new)>(xs: seq<T>, le: (T, T) -> bool)
    requires xs != [] && Ordered(xs, le)
    ensures Ordered(xs[..|xs| - 1], le)
  {
  }

  /** Two ordered lists of the same elements end in the greatest of them. */
  lemma SameLast<T(!new)>(xs: seq<T>, ys: seq<T>, le: (T, T) -> bool)
    requires TotalOrder(le) && Ordered(xs, le) && Ordered(ys, le)
    requires xs != [] && ys != [] && multiset(xs) == multiset(ys)
    ensures xs[|xs| - 1] == ys[|ys| - 1]
  {
    hide Ordered, TotalPreorder;
    var x, y := xs[|xs| - 1], ys[|ys| - 1];
    assert x in multiset(xs) && y in multiset(ys);
    LastIsGreatest(xs, y, le);
    LastIsGreatest(ys, x, le);
  }

  /** The greatest element comes last in both lists; so does the greatest of the others. */
  lemma {:induction false} OrderedUnique<T(!new)>(xs: seq<T>, ys: seq<T>, le: (T, T) -> bool)
    requires TotalOrder(le) && Ordered(xs, le) && Ordered(ys, le)
    requires multiset(xs) == multiset(ys)
    ensures xs == ys
    decreases |xs|
  {
    hide TotalOrder, Ordered;
    assert |xs| == |multiset(xs)| == |ys|;
    if xs != [] {
      var n := |xs| - 1;
      SameLast(xs, ys, le);
      WithoutLast(xs);
      WithoutLast(ys);
      assert multiset(xs[..n]) == multiset(xs) - multiset{xs[n]} == multiset(ys[..n]);
      OrderedInit(xs, le);
      OrderedInit(ys, le);
      OrderedUnique(xs[..n], ys[..n], le);
      assert xs == xs[..n] + [xs[n]] && ys == ys[..n] + [ys[n]];
    }
  }

  /** Any ordered rearrangement of `xs` is `Sort(xs)`; so sorting twice, or by parts, changes nothing. */
  lemma SortUnique<T(!new)>(ys: seq<T>, xs: seq<T>, le: (T, T) -> bool)
    requires TotalOrder(le)
    requires multiset(xs) == multiset(ys)
    ensures Sort(xs, le) == Sort(ys, le)
  {
    SortCorrect(xs, le);
    SortCorrect(ys, le);
    OrderedUnique(Sort(xs, le), Sort(ys, le), le);
  }
}
