/** Run identifiers, timestamps, and where a run's files live. */
module RunIds {
  import opened Text

  /** A UTC clock reading. */
  datatype Instant = Instant(year: nat, month: nat, day: nat, hour: nat, minute: nat, second: nat, micro: nat)

  /** The years that `%Y` and `isoformat` write with exactly four digits. */
  predicate IsInstant(t: Instant) {
    1000 <= t.year <= 9999 && 1 <= t.month <= 12 && 1 <= t.day <= 31 &&
    t.hour < 24 && t.minute < 60 && t.second < 60 && t.micro < 1_000_000
  }

  function Seconds(t: Instant): seq<nat> { [t.year, t.month, t.day, t.hour, t.minute, t.second] }

  /** Calendar order: the first component that differs decides. */
  predicate LexLe(a: seq<nat>, b: seq<nat>)
    requires |a| == |b|
  {
    a == [] || a[0] < b[0] || (a[0] == b[0] && LexLe(a[1..], b[1..]))
  }

  predicate NotLater(a: Instant, b: Instant) { LexLe(Seconds(a) + [a.micro], Seconds(b) + [b.micro]) }

  // ---------------------------------------------------------------- fixed-width numbers

  function Power10(w: nat): nat { if w == 0 then 1 else 10 * Power10(w - 1) }

  /** The last `w` decimal digits of `n`. */
  function Pad(n: nat, w: nat): (r: string)
    ensures |r| == w && forall i :: 0 <= i < w ==> IsDigit(r[i])
  {
    if w == 0 then "" else Pad(n / 10, w - 1) + [DigitChar(n % 10)]
  }

  lemma {:induction false} PadInjective(a: nat, b: nat, w: nat)
    requires a < Power10(w) && b < Power10(w)
    ensures Pad(a, w) == Pad(b, w) <==> a == b
  {
    if w > 0 {
      PadInjective(a / 10, b / 10, w - 1);
      if Pad(a, w) == Pad(b, w) {
        assert Pad(a, w)[..w - 1] == Pad(a / 10, w - 1) && Pad(b, w)[..w - 1] == Pad(b / 10, w - 1);
        assert Pad(a, w)[w - 1] == DigitChar(a % 10) && Pad(b, w)[w - 1] == DigitChar(b % 10);
      }
    }
  }

  lemma {:induction false} PadOrder(a: nat, b: nat, w: nat)
    requires a < Power10(w) && b < Power10(w)
    ensures StrLe(Pad(a, w), Pad(b, w)) <==> a <= b
  {
    if w > 0 {
      var p, q := Pad(a / 10, w - 1), Pad(b / 10, w - 1);
      PadOrder(a / 10, b / 10, w - 1);
      PadInjective(a / 10, b / 10, w - 1);
      if p == q {
        StrLePrefix(p, [DigitChar(a % 10)], [DigitChar(b % 10)]);
      } else {
        StrLeByHead(p, q, [DigitChar(a % 10)], [DigitChar(b % 10)]);
      }
    }
  }

  /** The digits can be read back. */
  lemma {:induction false} PadReads(n: nat, w: nat)
    requires n < Power10(w)
    ensures NumberOf(Pad(n, w)) == n
  {
    if w > 0 {
      PadReads(n / 10, w - 1);
      assert Pad(n, w)[..w - 1] == Pad(n / 10, w - 1) && Pad(n, w)[w - 1] == DigitChar(n % 10);
    }
  }

  // ---------------------------------------------------------------- comparing texts piece by piece

  /** The digits of `values`, number `i` written with `widths[i]` digits and followed by `marks[i]`. */
  function Stamp(values: seq<nat>, widths: seq<nat>, marks: seq<string>): string
    requires |values| == |widths| == |marks|
  {
    if values == [] then ""
    else Pad(values[0], widths[0]) + (marks[0] + Stamp(values[1..], widths[1..], marks[1..]))
  }

  predicate Fits(values: seq<nat>, widths: seq<nat>) {
    |values| == |widths| && forall i :: 0 <= i < |values| ==> values[i] < Power10(widths[i])
  }

  /** Stamps sort as the numbers they are made of, whatever follows them. */
  lemma {:induction false} StampOrder(a: seq<nat>, b: seq<nat>, widths: seq<nat>, marks: seq<string>, x: string,
                                      y: string)
    requires |a| == |b| == |widths| == |marks| && Fits(a, widths) && Fits(b, widths)
    ensures a != b ==> (StrLe(Stamp(a, widths, marks) + x, Stamp(b, widths, marks) + y) <==> LexLe(a, b))
    ensures a == b ==> (StrLe(Stamp(a, widths, marks) + x, Stamp(b, widths, marks) + y) <==> StrLe(x, y))
  {
    if a == [] {
      assert "" + x == x && "" + y == y;
    } else {
      var p, q := Pad(a[0], widths[0]), Pad(b[0], widths[0]);
      var ta, tb := Stamp(a[1..], widths[1..], marks[1..]), Stamp(b[1..], widths[1..], marks[1..]);
      assert p + (marks[0] + ta) + x == p + (marks[0] + (ta + x));
      assert q + (marks[0] + tb) + y == q + (marks[0] + (tb + y));
      assert a == [a[0]] + a[1..] && b == [b[0]] + b[1..];
      PadOrder(a[0], b[0], widths[0]);
      PadInjective(a[0], b[0], widths[0]);
      if a[0] == b[0] {
        StrLePrefix(p, marks[0] + (ta + x), marks[0] + (tb + y));
        StrLePrefix(marks[0], ta + x, tb + y);
        StampOrder(a[1..], b[1..], widths[1..], marks[1..], x, y);
      } else {
        StrLeByHead(p, q, marks[0] + (ta + x), marks[0] + (tb + y));
      }
    }
  }

  // ---------------------------------------------------------------- run ids

  const WIDTHS: seq<nat> := [4, 2, 2, 2, 2, 2]

  /** `vrun-{now:%Y%m%d}-{now:%H%M%S}-{token_hex(4)}` */
  function NewRunId(now: Instant, hex: string): string {
    "vrun-" + (Stamp(Seconds(now), WIDTHS, ["", "", "-", "", "", "-"]) + hex)
  }

  predicate IsHexDigit(c: char) { IsDigit(c) || 'a' <= c <= 'f' }

  predicate IsHex8(hex: string) { |hex| == 8 && forall i :: 0 <= i < 8 ==> IsHexDigit(hex[i]) }

  predicate AllDigits(s: string, lo: nat, hi: nat) {
    hi <= |s| && forall i :: lo <= i < hi ==> IsDigit(s[i])
  }

  /** `RUN_ID_RE.fullmatch(s)` */
  predicate IsRunId(s: string) {
    && |s| == 29
    && s[..5] == "vrun-" && AllDigits(s, 5, 13) && s[13] == '-' && AllDigits(s, 14, 20) && s[20] == '-'
    && IsHex8(s[21..])
  }

  predicate IsHexOf(hex: string, n: nat) {
    |hex| == n && forall i :: 0 <= i < n ==> hex[i] in "0123456789abcdef"
  }

  /** A date, a time and a random part, of eight, six and eight digits. */
  lemma RunIdMeaning(s: string)
    ensures IsRunId(s) <==> exists date, time, hex ::
              Digits(date, 8) && Digits(time, 6) && IsHexOf(hex, 8) &&
              s == "vrun-" + (date + ("-" + (time + ("-" + hex))))
  {
    hide IsRunId;
    forall c: char ensures IsHexDigit(c) <==> c in "0123456789abcdef" { HexDigits(c); }
    if IsRunId(s) {
      RunIdParts(s);
      assert Digits(s[5..13], 8) && Digits(s[14..20], 6) && IsHexOf(s[21..], 8);
    }
    if date, time, hex :| Digits(date, 8) && Digits(time, 6) && IsHexOf(hex, 8) &&
                          s == "vrun-" + (date + ("-" + (time + ("-" + hex))))
    {
      RunIdShape(date, time, hex);
    }
  }

  lemma HexDigits(c: char)
    ensures IsHexDigit(c) <==> c in "0123456789abcdef"
  {
    if '0' <= c <= '9' { assert "0123456789abcdef"[(c - '0') as int] == c; }
    if 'a' <= c <= 'f' { assert "0123456789abcdef"[10 + (c - 'a') as int] == c; }
  }

  lemma RunIdParts(s: string)
    requires IsRunId(s)
    ensures |s| == 29 && s == "vrun-" + (s[5..13] + ("-" + (s[14..20] + ("-" + s[21..]))))
    ensures Digits(s[5..13], 8) && Digits(s[14..20], 6) && IsHex8(s[21..])
  {
    assert s == s[..5] + (s[5..13] + ([s[13]] + (s[14..20] + ([s[20]] + s[21..]))));
  }

  lemma SecondsFit(t: Instant)
    requires IsInstant(t)
    ensures Fits(Seconds(t), WIDTHS)
  {
  }

  predicate Digits(s: string, n: nat) { |s| == n && AllDigits(s, 0, n) }

  lemma RunIdShape(date: string, time: string, hex: string)
    requires Digits(date, 8) && Digits(time, 6) && IsHex8(hex)
    ensures IsRunId("vrun-" + (date + ("-" + (time + ("-" + hex)))))
  {
    var s := "vrun-" + (date + ("-" + (time + ("-" + hex))));
    assert s[..5] == "vrun-" && s[21..] == hex;
    assert forall i :: 5 <= i < 13 ==> s[i] == date[i - 5];
    assert forall i :: 14 <= i < 20 ==> s[i] == time[i - 14];
  }

  lemma NewRunIdMatches(now: Instant, hex: string)
    requires IsInstant(now) && IsHex8(hex)
    ensures IsRunId(NewRunId(now, hex))
  {
    hide Pad, Stamp, IsRunId;
    var y, mo, d := Pad(now.year, 4), Pad(now.month, 2), Pad(now.day, 2);
    var h, mi, s := Pad(now.hour, 2), Pad(now.minute, 2), Pad(now.second, 2);
    StampOfSeconds(now, ["", "", "-", "", "", "-"]);
    RunIdShape(y + mo + d, h + mi + s, hex);
    assert Stamp(Seconds(now), WIDTHS, ["", "", "-", "", "", "-"]) + hex
        == (y + mo + d) + ("-" + ((h + mi + s) + ("-" + hex)));
  }

  lemma StampFrom(values: seq<nat>, widths: seq<nat>, marks: seq<string>, k: nat)
    requires k < |values| == |widths| == |marks|
    ensures Stamp(values[k..], widths[k..], marks[k..]) ==
            Pad(values[k], widths[k]) + (marks[k] + Stamp(values[k + 1..], widths[k + 1..], marks[k + 1..]))
  {
  }

  lemma StampOfSix(v: seq<nat>, w: seq<nat>, marks: seq<string>)
    requires |v| == |w| == |marks| == 6
    ensures Stamp(v, w, marks) ==
            Pad(v[0], w[0]) + (marks[0] + (Pad(v[1], w[1]) + (marks[1] + (Pad(v[2], w[2]) + (marks[2] +
            (Pad(v[3], w[3]) + (marks[3] + (Pad(v[4], w[4]) + (marks[4] + (Pad(v[5], w[5]) + (marks[5] + "")))))))))))
  {
    hide Pad, Stamp;
    assert v[0..] == v && w[0..] == w && marks[0..] == marks;
    assert Stamp(v[6..], w[6..], marks[6..]) == "" by { StampOfNone(v[6..], w[6..], marks[6..]); }
    StampFrom(v, w, marks, 0);
    StampFrom(v, w, marks, 1);
    StampFrom(v, w, marks, 2);
    StampFrom(v, w, marks, 3);
    StampFrom(v, w, marks, 4);
    StampFrom(v, w, marks, 5);
  }

  lemma StampOfNone(v: seq<nat>, w: seq<nat>, marks: seq<string>)
    requires |v| == |w| == |marks| == 0
    ensures Stamp(v, w, marks) == ""
  {
  }

  lemma StampOfSeconds(t: Instant, marks: seq<string>)
    requires |marks| == 6
    ensures Stamp(Seconds(t), WIDTHS, marks) ==
            Pad(t.year, 4) + (marks[0] + (Pad(t.month, 2) + (marks[1] + (Pad(t.day, 2) + (marks[2] +
            (Pad(t.hour, 2) + (marks[3] + (Pad(t.minute, 2) + (marks[4] + (Pad(t.second, 2) + (marks[5] + "")))))))))))
  {
    hide Pad, Stamp;
    StampOfSix(Seconds(t), WIDTHS, marks);
  }

  /** Ids minted in different seconds sort as their instants do. */
  lemma RunIdsSortByTime(a: Instant, b: Instant, x: string, y: string)
    requires IsInstant(a) && IsInstant(b) && Seconds(a) != Seconds(b)
    ensures StrLe(NewRunId(a, x), NewRunId(b, y)) <==> LexLe(Seconds(a), Seconds(b))
  {
    var marks := ["", "", "-", "", "", "-"];
    SecondsFit(a);
    SecondsFit(b);
    StrLePrefix("vrun-", Stamp(Seconds(a), WIDTHS, marks) + x, Stamp(Seconds(b), WIDTHS, marks) + y);
    StampOrder(Seconds(a), Seconds(b), WIDTHS, marks, x, y);
  }

  // ---------------------------------------------------------------- timestamps

  function Fraction(micro: nat): string { if micro == 0 then "" else "." + Pad(micro, 6) }

  /** `datetime.isoformat()` of a UTC instant: the fraction is left out when it is zero. */
  function IsoFormat(t: Instant): string {
    Stamp(Seconds(t), WIDTHS, ["-", "-", "T", ":", ":", ""]) + (Fraction(t.micro) + "+00:00")
  }

  /** The digits of `s` from `lo` to `hi` write `n`. */
  predicate Reads(s: string, lo: nat, hi: nat, n: nat) {
    lo <= hi && AllDigits(s, lo, hi) && NumberOf(s[lo..hi]) == n
  }

  lemma PadIsRead(n: nat, w: nat, before: string, after: string)
    requires n < Power10(w)
    ensures Reads(before + (Pad(n, w) + after), |before|, |before| + w, n)
  {
    var s, b := before + (Pad(n, w) + after), |before|;
    PadReads(n, w);
    assert s[b..b + w] == Pad(n, w);
    forall k | b <= k < b + w ensures IsDigit(s[k]) { assert s[k] == Pad(n, w)[k - b]; }
  }

  lemma SmallPowers()
    ensures Power10(2) == 100 && Power10(4) == 10_000 && Power10(6) == 1_000_000
  {
    assert Power10(3) == 1000;
  }

  /** Date and time, read back from a stamp of which the six numbers stand at the given offsets. */
  predicate ReadsInstant(s: string, at: seq<nat>, t: Instant)
    requires |at| == 6
  {
    && Reads(s, at[0], at[0] + 4, t.year) && Reads(s, at[1], at[1] + 2, t.month) && Reads(s, at[2], at[2] + 2, t.day)
    && Reads(s, at[3], at[3] + 2, t.hour) && Reads(s, at[4], at[4] + 2, t.minute)
    && Reads(s, at[5], at[5] + 2, t.second)
  }

  /** A run id tells when it was minted, to the second. */
  lemma RunIdReads(now: Instant, hex: string)
    requires IsInstant(now)
    ensures ReadsInstant(NewRunId(now, hex), [5, 9, 11, 14, 16, 18], now)
  {
    hide Pad, Stamp, Reads, Power10;
    var y, mo, d := Pad(now.year, 4), Pad(now.month, 2), Pad(now.day, 2);
    var h, mi, s := Pad(now.hour, 2), Pad(now.minute, 2), Pad(now.second, 2);
    StampOfSeconds(now, ["", "", "-", "", "", "-"]);
    SmallPowers();
    var id := NewRunId(now, hex);
    var tail := "-" + hex;
    assert id == "vrun-" + (y + (mo + d + ("-" + (h + mi + s + tail))));
    assert id == ("vrun-" + y) + (mo + (d + ("-" + (h + mi + s + tail))));
    assert id == ("vrun-" + y + mo) + (d + ("-" + (h + mi + s + tail)));
    assert id == ("vrun-" + y + mo + d + "-") + (h + (mi + s + tail));
    assert id == ("vrun-" + y + mo + d + "-" + h) + (mi + (s + tail));
    assert id == ("vrun-" + y + mo + d + "-" + h + mi) + (s + tail);
    PadIsRead(now.year, 4, "vrun-", mo + d + ("-" + (h + mi + s + tail)));
    PadIsRead(now.month, 2, "vrun-" + y, d + ("-" + (h + mi + s + tail)));
    PadIsRead(now.day, 2, "vrun-" + y + mo, "-" + (h + mi + s + tail));
    PadIsRead(now.hour, 2, "vrun-" + y + mo + d + "-", mi + s + tail);
    PadIsRead(now.minute, 2, "vrun-" + y + mo + d + "-" + h, s + tail);
    PadIsRead(now.second, 2, "vrun-" + y + mo + d + "-" + h + mi, tail);
  }

  lemma TimestampForm(t: Instant, time: string)
    requires time == Pad(t.hour, 2) + (":" + (Pad(t.minute, 2) + (":" + (Pad(t.second, 2) +
                     (Fraction(t.micro) + "+00:00")))))
    ensures IsoFormat(t) == Pad(t.year, 4) + ("-" + (Pad(t.month, 2) + ("-" + (Pad(t.day, 2) + ("T" + time)))))
  {
    hide Pad, Stamp;
    StampOfSeconds(t, ["-", "-", "T", ":", ":", ""]);
  }

  lemma DateReads(s: string, t: Instant, rest: string)
    requires IsInstant(t)
    requires s == Pad(t.year, 4) + ("-" + (Pad(t.month, 2) + ("-" + (Pad(t.day, 2) + ("T" + rest)))))
    ensures Reads(s, 0, 4, t.year) && Reads(s, 5, 7, t.month) && Reads(s, 8, 10, t.day)
    ensures s[4] == '-' && s[7] == '-' && s[10] == 'T' && s[11..] == rest
  {
    hide Pad, Reads, Power10;
    SmallPowers();
    var y, mo, d := Pad(t.year, 4), Pad(t.month, 2), Pad(t.day, 2);
    assert s == "" + (y + ("-" + (mo + ("-" + (d + ("T" + rest))))));
    assert s == (y + "-") + (mo + ("-" + (d + ("T" + rest))));
    assert s == (y + "-" + mo + "-") + (d + ("T" + rest));
    PadIsRead(t.year, 4, "", "-" + (mo + ("-" + (d + ("T" + rest)))));
    PadIsRead(t.month, 2, y + "-", "-" + (d + ("T" + rest)));
    PadIsRead(t.day, 2, y + "-" + mo + "-", "T" + rest);
  }

  lemma TimeReads(s: string, t: Instant, rest: string)
    requires IsInstant(t)
    requires s == Pad(t.hour, 2) + (":" + (Pad(t.minute, 2) + (":" + (Pad(t.second, 2) + rest))))
    ensures Reads(s, 0, 2, t.hour) && Reads(s, 3, 5, t.minute) && Reads(s, 6, 8, t.second)
    ensures s[2] == ':' && s[5] == ':' && s[8..] == rest
  {
    hide Pad, Reads, Power10;
    SmallPowers();
    var h, mi, sec := Pad(t.hour, 2), Pad(t.minute, 2), Pad(t.second, 2);
    assert s == "" + (h + (":" + (mi + (":" + (sec + rest)))));
    assert s == (h + ":") + (mi + (":" + (sec + rest)));
    assert s == (h + ":" + mi + ":") + (sec + rest);
    PadIsRead(t.hour, 2, "", ":" + (mi + (":" + (sec + rest))));
    PadIsRead(t.minute, 2, h + ":", ":" + (sec + rest));
    PadIsRead(t.second, 2, h + ":" + mi + ":", rest);
  }

  lemma FractionReads(micro: nat)
    requires micro < 1_000_000
    ensures var s := Fraction(micro) + "+00:00";
            if micro == 0 then s == "+00:00"
            else |s| == 13 && s[0] == '.' && Reads(s, 1, 7, micro) && s[7..] == "+00:00"
  {
    hide Pad, Reads, Power10;
    SmallPowers();
    if micro != 0 {
      var s := Fraction(micro) + "+00:00";
      assert s == "." + (Pad(micro, 6) + "+00:00");
      PadIsRead(micro, 6, ".", "+00:00");
    }
  }

  /** A timestamp tells the instant, in UTC. */
  lemma TimestampReads(t: Instant)
    requires IsInstant(t)
    ensures |IsoFormat(t)| > 11
    ensures var s, time := IsoFormat(t), IsoFormat(t)[11..];
            && Reads(s, 0, 4, t.year) && s[4] == '-' && Reads(s, 5, 7, t.month) && s[7] == '-'
            && Reads(s, 8, 10, t.day) && s[10] == 'T' && |time| > 8
            && Reads(time, 0, 2, t.hour) && time[2] == ':' && Reads(time, 3, 5, t.minute) && time[5] == ':'
            && Reads(time, 6, 8, t.second)
            && var rest := time[8..];
            if t.micro == 0 then rest == "+00:00"
            else |rest| == 13 && rest[0] == '.' && Reads(rest, 1, 7, t.micro) && rest[7..] == "+00:00"
  {
    hide Pad, Reads, IsoFormat, Fraction;
    var rest := Fraction(t.micro) + "+00:00";
    var time := Pad(t.hour, 2) + (":" + (Pad(t.minute, 2) + (":" + (Pad(t.second, 2) + rest))));
    TimestampForm(t, time);
    DateReads(IsoFormat(t), t, time);
    TimeReads(time, t, rest);
    FractionReads(t.micro);
  }

  lemma TimestampStartsWithDigit(t: Instant)
    ensures IsoFormat(t) != "" && IsDigit(IsoFormat(t)[0])
  {
    assert Stamp(Seconds(t), WIDTHS, ["-", "-", "T", ":", ":", ""])[..4] == Pad(t.year, 4);
  }

  /** Timestamps sort by time to the microsecond, although some are shorter than others. */
  lemma TimestampsSortByTime(a: Instant, b: Instant)
    requires IsInstant(a) && IsInstant(b)
    ensures StrLe(IsoFormat(a), IsoFormat(b)) <==> NotLater(a, b)
  {
    var x, y := Fraction(a.micro) + "+00:00", Fraction(b.micro) + "+00:00";
    SecondsFit(a);
    SecondsFit(b);
    StampOrder(Seconds(a), Seconds(b), WIDTHS, ["-", "-", "T", ":", ":", ""], x, y);
    LexLeAppend(Seconds(a), Seconds(b), a.micro, b.micro);
    if Seconds(a) == Seconds(b) { FractionOrder(a.micro, b.micro); }
  }

  lemma FractionOrder(a: nat, b: nat)
    requires a < 1_000_000 && b < 1_000_000
    ensures StrLe(Fraction(a) + "+00:00", Fraction(b) + "+00:00") <==> a <= b
  {
    var x, y := Fraction(a) + "+00:00", Fraction(b) + "+00:00";
    if a == 0 || b == 0 {
      assert x[0] == if a == 0 then '+' else '.';
      assert y[0] == if b == 0 then '+' else '.';
      if a == b { StrLeTotal(x, y); }
    } else {
      assert Power10(6) == 1_000_000 by { assert Power10(3) == 1000; }
      PadOrder(a, b, 6);
      PadInjective(a, b, 6);
      var p, q := Pad(a, 6), Pad(b, 6);
      assert x == "." + (p + "+00:00") && y == "." + (q + "+00:00");
      StrLePrefix(".", p + "+00:00", q + "+00:00");
      if a == b { StrLeTotal(x, y); } else { StrLeByHead(p, q, "+00:00", "+00:00"); }
    }
  }

  lemma {:induction false} LexLeAppend(a: seq<nat>, b: seq<nat>, x: nat, y: nat)
    requires |a| == |b|
    ensures LexLe(a + [x], b + [y]) <==> (if a == b then x <= y else LexLe(a, b))
  {
    if a != [] {
      assert (a + [x])[1..] == a[1..] + [x] && (b + [y])[1..] == b[1..] + [y];
      assert a == [a[0]] + a[1..] && b == [b[0]] + b[1..];
      LexLeAppend(a[1..], b[1..], x, y);
    }
  }

  // ---------------------------------------------------------------- directories

  function SplitAt(s: string, mark: char): (parts: seq<string>)
    ensures parts != []
  {
    if mark !in s then [s]
    else if s[0] == mark then [""] + SplitAt(s[1..], mark)
    else
      var rest := SplitAt(s[1..], mark);
      [[s[0]] + rest[0]] + rest[1..]
  }

  /** One step of `Path.resolve()` in a tree without symbolic links; directories are lists of names. */
  function Enter(dir: seq<string>, name: string): seq<string> {
    if name == "" || name == "." then dir
    else if name == ".." then (if dir == [] then [] else dir[..|dir| - 1])
    else dir + [name]
  }

  function Walk(dir: seq<string>, names: seq<string>): seq<string>
    decreases |names|
  {
    if names == [] then dir else Walk(Enter(dir, names[0]), names[1..])
  }

  /** `(root / path).resolve()`: an absolute path replaces the root. */
  function ResolveUnder(root: seq<string>, path: string): seq<string> {
    Walk(if path != "" && path[0] == '/' then [] else root, SplitAt(path, '/'))
  }

  datatype Located = Inside(dir: seq<string>) | InvalidRunId | EscapedRoot

  function RunDir(root: seq<string>, runId: string): Located {
    if !IsRunId(runId) then InvalidRunId
    else
      var dir := ResolveUnder(root, runId);
      if root <= dir then Inside(dir) else EscapedRoot
  }

  function AsPosix(dir: seq<string>): string {
    if dir == [] then "/" else if |dir| == 1 then "/" + dir[0] else AsPosix(dir[..|dir| - 1]) + "/" + dir[|dir| - 1]
  }

  /** The names below `/`, with a slash between each two of them. */
  lemma {:induction false} PosixIsJoin(dir: seq<string>)
    ensures AsPosix(dir) == "/" + Join(dir, "/")
  {
    if |dir| > 1 {
      var init, last := dir[..|dir| - 1], dir[|dir| - 1];
      PosixIsJoin(init);
      JoinAppend(init, last, "/");
      assert dir == init + [last];
      assert "/" + Join(init, "/") + "/" + last == "/" + (Join(init, "/") + "/" + last);
    }
  }

  lemma {:induction false} JoinAppend(parts: seq<string>, last: string, separator: string)
    requires parts != []
    ensures Join(parts + [last], separator) == Join(parts, separator) + separator + last
  {
    if |parts| == 1 {
      assert (parts + [last])[1..] == [last];
    } else {
      JoinAppend(parts[1..], last, separator);
      assert (parts + [last])[1..] == parts[1..] + [last];
    }
  }

  /** A run id is one path component: its directory is always a child of the root. */
  lemma RunDirIsChildOfRoot(root: seq<string>, runId: string)
    ensures RunDir(root, runId) == if IsRunId(runId) then Inside(root + [runId]) else InvalidRunId
  {
    if IsRunId(runId) {
      forall i | 0 <= i < |runId| ensures runId[i] != '/' {
        if i < 5 { assert runId[i] == runId[..5][i]; }
        if i >= 21 { assert runId[i] == runId[21..][i - 21]; }
      }
      assert SplitAt(runId, '/') == [runId];
      assert Walk(root, [runId]) == Walk(Enter(root, runId), []) == root + [runId];
    }
  }
}
