/** Label globs of internal/core/label.go: a glob is turned into the text of a regular
    expression, which is compiled and matched. The regular expressions here are those with
    anchors, literals, escapes, the dot and the star. */
module Globs {
  import opened Options

  // ---------- regular expressions ----------

  datatype Regex = Empty | Chr(c: char) | Dot | Star(r: Regex) | Cat(first: Regex, rest: Regex)

  /** The dot matches any character but a newline. */
  ghost predicate Denotes(r: Regex, s: string)
    decreases |s|, r
  {
    match r
    case Empty => s == []
    case Chr(c) => s == [c]
    case Dot => |s| == 1 && s[0] != '\n'
    case Star(q) => s == [] || exists k :: 1 <= k <= |s| && Denotes(q, s[..k]) && Denotes(r, s[k..])
    case Cat(a, b) => exists k :: 0 <= k <= |s| && Denotes(a, s[..k]) && Denotes(b, s[k..])
  }

  predicate IsMeta(c: char) {
    c in {'.', '+', '*', '?', '^', '$', '(', ')', '[', ']', '{', '}', '|', '\\'}
  }

  predicate IsQuantifier(c: char) {
    c in {'*', '+', '?', '{'}
  }

  /** Reads the part between the anchors; None for anything outside the forms above. */
  function ParseBody(t: string): Option<Regex>
    decreases |t|, 0
  {
    if t == [] then Some(Empty)
    else if t[0] == '\\' then
      if |t| < 2 || !IsMeta(t[1]) then None else Item(Chr(t[1]), t[2..])
    else if t[0] == '.' then Item(Dot, t[1..])
    else if IsMeta(t[0]) then None
    else Item(Chr(t[0]), t[1..])
  }

  /** A single expression, starred or not, followed by the rest. */
  function Item(r: Regex, t: string): Option<Regex>
    decreases |t|, 1
  {
    if t != [] && t[0] == '*' then
      if |t| > 1 && IsQuantifier(t[1]) then None else Then(Star(r), ParseBody(t[1..]))
    else if t != [] && IsQuantifier(t[0]) then None
    else Then(r, ParseBody(t))
  }

  function Then(r: Regex, rest: Option<Regex>): Option<Regex> {
    if rest.Some? then Some(Cat(r, rest.value)) else None
  }

  /** Compiles an expression that is anchored at both ends. */
  function Compile(t: string): Option<Regex> {
    if |t| >= 2 && t[0] == '^' && t[|t| - 1] == '$' then ParseBody(t[1..|t| - 1]) else None
  }

  // ---------- the translation ----------

  predicate NeedsEscape(ch: char) {
    ch in {'.', '+', '^', '$', '(', ')', '[', ']', '{', '}', '|', '\\'}
  }

  function TranslateChar(ch: char): string {
    if ch == '*' then ".*"
    else if ch == '?' then "."
    else if NeedsEscape(ch) then ['\\', ch]
    else [ch]
  }

  function Translate(glob: string): string {
    if glob == [] then [] else TranslateChar(glob[0]) + Translate(glob[1..])
  }

  method GlobToRegex(glob: string) returns (result: string)
    ensures result == "^" + Translate(glob) + "$"
    ensures Compile(result).Some? && forall s :: Denotes(Compile(result).value, s) <==> LineGlobMatch(glob, s)
  {
    result := "^";
    for i := 0 to |glob|
      invariant result + Translate(glob[i..]) == "^" + Translate(glob)
    {
      assert glob[i..][1..] == glob[i + 1..];
      var ch := glob[i];
      assert result + (TranslateChar(ch) + Translate(glob[i + 1..])) == result + TranslateChar(ch) + Translate(glob[i + 1..]);
      if ch == '*' {
        result := result + ".*";
      } else if ch == '?' {
        result := result + ".";
      } else if NeedsEscape(ch) {
        result := result + ['\\', ch];
      } else {
        result := result + [ch];
      }
    }
    assert result + [] == result;
    result := result + "$";
    forall s ensures MatchGlob(glob, s) <==> LineGlobMatch(glob, s) {
      TranslationPreservesMeaning(glob, s);
    }
    TranslationPreservesMeaning(glob, "");
  }

  // ---------- what globs mean ----------

  /** A star stands for any run of characters, a question mark for any one character, any
      other character for itself. */
  predicate GlobMatch(g: string, s: string)
    decreases |g| + |s|
  {
    if g == [] then s == []
    else if g[0] == '*' then GlobMatch(g[1..], s) || (s != [] && GlobMatch(g, s[1..]))
    else s != [] && (g[0] == '?' || g[0] == s[0]) && GlobMatch(g[1..], s[1..])
  }

  /** The same with wildcards that do not stand for newlines. */
  predicate LineGlobMatch(g: string, s: string)
    decreases |g| + |s|
  {
    if g == [] then s == []
    else if g[0] == '*' then LineGlobMatch(g[1..], s) || (s != [] && s[0] != '\n' && LineGlobMatch(g, s[1..]))
    else s != [] && (if g[0] == '?' then s[0] != '\n' else g[0] == s[0]) && LineGlobMatch(g[1..], s[1..])
  }

  /** The expression a glob is meant to become. */
  function Meaning(g: string): Regex {
    if g == [] then Empty
    else Cat(if g[0] == '*' then Star(Dot) else if g[0] == '?' then Dot else Chr(g[0]), Meaning(g[1..]))
  }

  lemma TranslateStarts(g: string)
    ensures g != [] ==> Translate(g) != [] && !IsQuantifier(Translate(g)[0])
  {
  }

  /** Every translated glob compiles, to the expression it is meant to become. */
  lemma {:induction false} TranslationCompiles(g: string)
    ensures ParseBody(Translate(g)) == Some(Meaning(g))
  {
    if g != [] {
      var rest := Translate(g[1..]);
      TranslationCompiles(g[1..]);
      TranslateStarts(g[1..]);
      var t := Translate(g);
      if g[0] == '*' {
        assert t[1..] == ['*'] + rest && t[1..][1..] == rest;
      } else if g[0] != '?' && NeedsEscape(g[0]) {
        assert t[2..] == rest;
      } else {
        assert t[1..] == rest;
      }
    }
  }

  predicate OneLine(s: string) {
    forall k :: 0 <= k < |s| ==> s[k] != '\n'
  }

  /** The starred dot matches exactly the texts without a newline. */
  lemma {:induction false} StarDot(s: string)
    ensures Denotes(Star(Dot), s) <==> OneLine(s)
  {
    if s != [] {
      StarDot(s[1..]);
      assert s[..1] == [s[0]];
      if OneLine(s) {
        assert Denotes(Dot, s[..1]) && Denotes(Star(Dot), s[1..]);
      }
      if Denotes(Star(Dot), s) {
        var k :| 1 <= k <= |s| && Denotes(Dot, s[..k]) && Denotes(Star(Dot), s[k..]);
        assert k == 1;
      }
    }
  }

  /** The first `k` characters are on one line, and `r` matches the others. */
  ghost predicate Takes(r: Regex, s: string, k: int) {
    0 <= k <= |s| && OneLine(s[..k]) && Denotes(r, s[k..])
  }

  /** A starred dot before an expression takes off a run without a newline. */
  lemma StarDotThen(r: Regex, s: string)
    ensures Denotes(Cat(Star(Dot), r), s) <==> exists k :: Takes(r, s, k)
  {
    forall k | 0 <= k <= |s| ensures Denotes(Star(Dot), s[..k]) <==> OneLine(s[..k]) {
      StarDot(s[..k]);
    }
    if k :| Takes(r, s, k) {
      assert Denotes(Star(Dot), s[..k]) && Denotes(r, s[k..]);
    }
    if Denotes(Cat(Star(Dot), r), s) {
      var k :| 0 <= k <= |s| && Denotes(Star(Dot), s[..k]) && Denotes(r, s[k..]);
      assert Takes(r, s, k);
    }
  }

  lemma TakesNone(r: Regex, s: string)
    ensures Takes(r, s, 0) <==> Denotes(r, s)
  {
    assert s[0..] == s;
  }

  lemma TakesOneMore(r: Regex, s: string, k: int)
    requires s != [] && 1 <= k <= |s|
    ensures Takes(r, s, k) <==> s[0] != '\n' && Takes(r, s[1..], k - 1)
  {
    assert s[1..][k - 1..] == s[k..];
    var a, b := s[..k], s[1..][..k - 1];
    assert a == [s[0]] + b;
    assert forall j :: 0 <= j < |b| ==> b[j] == a[j + 1];
    assert a[0] == s[0];
  }

  lemma StarDotStep(r: Regex, s: string)
    ensures Denotes(Cat(Star(Dot), r), s) <==>
            Denotes(r, s) || (s != [] && s[0] != '\n' && Denotes(Cat(Star(Dot), r), s[1..]))
  {
    StarDotThen(r, s);
    TakesNone(r, s);
    if s != [] {
      StarDotThen(r, s[1..]);
      if k :| Takes(r, s, k) {
        if k > 0 {
          TakesOneMore(r, s, k);
        }
      }
      if k :| Takes(r, s[1..], k) {
        TakesOneMore(r, s, k + 1);
      }
    }
  }

  lemma OneCharThen(q: Regex, r: Regex, s: string)
    requires q.Chr? || q.Dot?
    ensures Denotes(Cat(q, r), s) <==> s != [] && Denotes(q, s[..1]) && Denotes(r, s[1..])
  {
    if Denotes(Cat(q, r), s) {
      var k :| 0 <= k <= |s| && Denotes(q, s[..k]) && Denotes(r, s[k..]);
      assert k == 1;
    }
  }

  /** The expression a glob becomes matches exactly what the glob matches line-wise. */
  lemma {:induction false} MeaningMatches(g: string, s: string)
    ensures Denotes(Meaning(g), s) <==> LineGlobMatch(g, s)
    decreases |g| + |s|
  {
    if g == [] {
    } else if g[0] == '*' {
      StarDotStep(Meaning(g[1..]), s);
      MeaningMatches(g[1..], s);
      if s != [] {
        MeaningMatches(g, s[1..]);
      }
    } else {
      OneCharThen(Meaning(g).first, Meaning(g[1..]), s);
      if s != [] {
        assert s[..1] == [s[0]];
        MeaningMatches(g[1..], s[1..]);
      }
    }
  }

  lemma {:induction false} OneLineMatch(g: string, s: string)
    requires OneLine(s)
    ensures LineGlobMatch(g, s) <==> GlobMatch(g, s)
    decreases |g| + |s|
  {
    if g == [] {
    } else if g[0] == '*' {
      OneLineMatch(g[1..], s);
      if s != [] {
        OneLineMatch(g, s[1..]);
      }
    } else if s != [] {
      OneLineMatch(g[1..], s[1..]);
    }
  }

  /** matchGlob: compile the translation and match the text against it. */
  ghost predicate MatchGlob(pattern: string, s: string) {
    var re := Compile("^" + Translate(pattern) + "$");
    re.Some? && Denotes(re.value, s)
  }

  /** For every pattern and every text, the translated glob compiles and matches exactly when
      the glob does, with wildcards that do not stand for newlines; on one line, that is
      the plain meaning of the glob. */
  lemma TranslationPreservesMeaning(pattern: string, s: string)
    ensures Compile("^" + Translate(pattern) + "$").Some?
    ensures MatchGlob(pattern, s) <==> LineGlobMatch(pattern, s)
    ensures OneLine(s) ==> (MatchGlob(pattern, s) <==> GlobMatch(pattern, s))
  {
    var t := "^" + Translate(pattern) + "$";
    assert t[1..|t| - 1] == Translate(pattern);
    TranslationCompiles(pattern);
    MeaningMatches(pattern, s);
    if OneLine(s) {
      OneLineMatch(pattern, s);
    }
  }

  /** On several lines the plain meaning is not preserved. */
  lemma StarStopsAtNewline()
    ensures GlobMatch("*", "\n") && !MatchGlob("*", "\n")
  {
    TranslationPreservesMeaning("*", "\n");
    assert "*"[1..] == "" && "\n"[1..] == "";
  }

  /** A lone star matches everything as a glob, but only single lines once translated. */
  lemma {:induction false} LoneStar(s: string)
    ensures GlobMatch("*", s) && (LineGlobMatch("*", s) <==> OneLine(s))
  {
    assert "*"[1..] == "";
    if s != [] {
      LoneStar(s[1..]);
      assert s == [s[0]] + s[1..];
    }
  }

  /** All globs keep their plain meaning on a text if and only if the text is one line. */
  lemma ExactlyOnOneLine(s: string)
    ensures (forall g :: MatchGlob(g, s) <==> GlobMatch(g, s)) <==> OneLine(s)
  {
    if OneLine(s) {
      forall g ensures MatchGlob(g, s) <==> GlobMatch(g, s) {
        TranslationPreservesMeaning(g, s);
      }
    } else {
      TranslationPreservesMeaning("*", s);
      LoneStar(s);
    }
  }
}
