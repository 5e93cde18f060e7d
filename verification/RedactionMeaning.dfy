/** What redaction does to a text, told by the items in it alone. */
module RedactionMeaning {
  import opened Regex
  import opened Patterns
  import opened Greedy
  import opened Redaction

  /** `out` is `s` with `mark` in place of each item that is taken. */
  ghost predicate Replaces(p: Pass, s: string, mark: string, out: string) {
    exists spans :: Taken(p, s, 0, spans) && out == Marked(s, 0, spans, mark)
  }

  lemma ReplacesOnce(p: Pass, s: string, mark: string, x: string, y: string)
    requires Replaces(p, s, mark, x) && Replaces(p, s, mark, y)
    ensures x == y
  {
    hide Taken, Marked;
    var xs :| Taken(p, s, 0, xs) && x == Marked(s, 0, xs, mark);
    var ys :| Taken(p, s, 0, ys) && y == Marked(s, 0, ys, mark);
    TakenOnce(p, s, 0, xs, ys);
  }

  /** The mark left for what a pass takes. */
  function Mark(p: Pass): string {
    if p == Email then "[EMAIL_REDACTED]"
    else if p == Phone then "[PHONE_REDACTED]"
    else if p == Order then "[ORDER_REDACTED]"
    else "[SECRET_REDACTED]"
  }

  /** A pass puts a mark in place of the leftmost item, of the longest that starts there, and so on after it. */
  lemma PassMeaning(p: Pass, s: string, out: string)
    ensures Apply(p, s) == out <==> Replaces(p, s, Mark(p), out)
  {
    hide Taken, Marked, Pattern, Replaces;
    PassTakes(p, s, 0);
    assert Replaces(p, s, Mark(p), Apply(p, s)) by { TakenReplaces(p, s, MatchesFrom(Pattern(p), s, 0)); }
    if Replaces(p, s, Mark(p), out) { ReplacesOnce(p, s, Mark(p), out, Apply(p, s)); }
  }

  lemma TakenReplaces(p: Pass, s: string, spans: seq<Span>)
    requires Taken(p, s, 0, spans) && Apply(p, s) == Marked(s, 0, spans, Mark(p))
    ensures Replaces(p, s, Mark(p), Apply(p, s))
  {
  }

  /** Emails first, then phone numbers, order numbers, keys, bearer tokens and JWTs. */
  ghost predicate RedactsTo(text: string, out: string) {
    exists a, b, c, d, e ::
      && Replaces(Email, text, Mark(Email), a) && Replaces(Phone, a, Mark(Phone), b)
      && Replaces(Order, b, Mark(Order), c) && Replaces(OpenAiKey, c, Mark(OpenAiKey), d)
      && Replaces(Bearer, d, Mark(Bearer), e) && Replaces(Jwt, e, Mark(Jwt), out)
  }

  /** The redacted text is the one that comes of taking out one kind of item after the other. */
  lemma RedactionMeans(text: string, out: string)
    ensures RedactText(text) == out <==> RedactsTo(text, out)
  {
    hide Replaces, Apply, Mark;
    var a := Apply(Email, text);
    var b := Apply(Phone, a);
    var c := Apply(Order, b);
    var d := Apply(OpenAiKey, c);
    var e := Apply(Bearer, d);
    forall p: Pass, s, x ensures Apply(p, s) == x <==> Replaces(p, s, Mark(p), x) { PassMeaning(p, s, x); }
    assert Replaces(Email, text, Mark(Email), a) && Replaces(Phone, a, Mark(Phone), b);
    assert Replaces(Order, b, Mark(Order), c) && Replaces(OpenAiKey, c, Mark(OpenAiKey), d);
    assert Replaces(Bearer, d, Mark(Bearer), e) && Replaces(Jwt, e, Mark(Jwt), RedactText(text));
  }
}
