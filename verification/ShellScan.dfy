/** The two hand-written shell scanners of internal/agent/policy.go: one cuts a command into
    segments, the other looks for constructs the cutter does not understand. Both keep track
    of quotes and backslashes; they must agree, or a construct could hide from one of them. */
module ShellScan {
  import opened Text

  datatype Lex = Lex(inSingle: bool, inDouble: bool, escaped: bool)

  const START := Lex(false, false, false)

  /** How one character changes quoting. */
  function Advance(st: Lex, c: char): Lex {
    if st.escaped then st.(escaped := false)
    else if c == '\\' && !st.inSingle then st.(escaped := true)
    else if c == '\'' && !st.inDouble then st.(inSingle := !st.inSingle)
    else if c == '"' && !st.inSingle then st.(inDouble := !st.inDouble)
    else st
  }

  predicate IsSeparator(c: char) {
    c == ';' || c == '\n' || c == '|' || c == '&'
  }

  /** An unquoted, unescaped separator. */
  predicate IsCut(st: Lex, c: char) {
    st == START && IsSeparator(c)
  }

  /** The pieces between cuts, the first one continuing from quoting state `st`. */
  function Cut(st: Lex, s: string): (pieces: seq<string>)
    ensures pieces != []
    decreases |s|
  {
    if s == [] then [""]
    else if IsCut(st, s[0]) then [""] + Cut(st, s[1..])
    else Prepend([s[0]], Cut(Advance(st, s[0]), s[1..]))
  }

  function Prepend(a: string, pieces: seq<string>): (r: seq<string>)
    requires pieces != []
    ensures r != []
  {
    [a + pieces[0]] + pieces[1..]
  }

  /** The pieces that are not blank, trimmed. */
  function Keep(pieces: seq<string>): seq<string> {
    if pieces == [] then []
    else if Trim(pieces[0]) == "" then Keep(pieces[1..])
    else [Trim(pieces[0])] + Keep(pieces[1..])
  }

  function ReplaceCRLF(s: string): string {
    if s == [] then []
    else if |s| >= 2 && s[0] == '\r' && s[1] == '\n' then ['\n'] + ReplaceCRLF(s[2..])
    else [s[0]] + ReplaceCRLF(s[1..])
  }

  /** The segments of a command. */
  function Segments(command: string): seq<string> {
    Keep(Cut(START, Trim(ReplaceCRLF(command))))
  }

  method SplitShellCommandSegments(command: string) returns (segments: seq<string>)
    ensures segments == Segments(command)
    ensures exists at :: CutPlaces(Trim(ReplaceCRLF(command)), at) && segments == Keep(Between(Trim(ReplaceCRLF(command)), 0, at))
  {
    var cmd := Trim(ReplaceCRLF(command));
    segments := [];
    var current, i := "", 0;
    var inSingle, inDouble, escaped := false, false, false;
    assert cmd[0..] == cmd;
    while i < |cmd|
      invariant 0 <= i <= |cmd|
      invariant Scan(segments, current, Lex(inSingle, inDouble, escaped), cmd[i..]) == Scan([], "", START, cmd)
    {
      var ch := cmd[i];
      assert cmd[i..][0] == ch && cmd[i..][1..] == cmd[i + 1..];
      if escaped {
        current := current + [ch];
        escaped := false;
      } else if ch == '\\' && !inSingle {
        current := current + [ch];
        escaped := true;
      } else if ch == '\'' && !inDouble {
        inSingle := !inSingle;
        current := current + [ch];
      } else if ch == '"' && !inSingle {
        inDouble := !inDouble;
        current := current + [ch];
      } else if !inSingle && !inDouble && (ch == ';' || ch == '\n' || ch == '|' || ch == '&') {
        segments := Flush(segments, current);
        current := "";
        if (ch == '|' || ch == '&') && i + 1 < |cmd| && cmd[i + 1] == ch {
          i := i + 1;
          assert cmd[i..][0] == ch && cmd[i..][1..] == cmd[i + 1..];
        }
      } else {
        current := current + [ch];
      }
      i := i + 1;
    }
    segments := Flush(segments, current);
    SegmentsByPosition(command);
    ScanIsKeep([], "", START, cmd);
    PrependNothing(Cut(START, cmd));
  }

  /** The cutter with its finished segments and its current piece. */
  function Scan(segments: seq<string>, current: string, st: Lex, s: string): seq<string>
    decreases |s|
  {
    if s == [] then Flush(segments, current)
    else if IsCut(st, s[0]) then Scan(Flush(segments, current), "", st, s[1..])
    else Scan(segments, current + [s[0]], Advance(st, s[0]), s[1..])
  }

  lemma {:induction false} ScanIsKeep(segments: seq<string>, current: string, st: Lex, s: string)
    ensures Scan(segments, current, st, s) == segments + Keep(Prepend(current, Cut(st, s)))
    decreases |s|
  {
    if s == [] {
      FlushPiece(segments, current, []);
      assert [""] + [] == [""];
    } else if IsCut(st, s[0]) {
      ScanIsKeep(Flush(segments, current), "", st, s[1..]);
      FlushPiece(segments, current, Cut(st, s[1..]));
    } else {
      ScanIsKeep(segments, current + [s[0]], Advance(st, s[0]), s[1..]);
      PrependMore(current, [s[0]], Cut(Advance(st, s[0]), s[1..]));
    }
  }

  function Flush(segments: seq<string>, current: string): seq<string> {
    if Trim(current) == "" then segments else segments + [Trim(current)]
  }

  lemma PrependNothing(pieces: seq<string>)
    requires pieces != []
    ensures Prepend("", pieces) == pieces
  {
    assert "" + pieces[0] == pieces[0];
  }

  lemma PrependMore(a: string, b: string, pieces: seq<string>)
    requires pieces != []
    ensures Prepend(a, Prepend(b, pieces)) == Prepend(a + b, pieces)
  {
    assert a + (b + pieces[0]) == a + b + pieces[0];
  }

  /** Closing a piece moves it over to the finished segments. */
  lemma FlushPiece(segments: seq<string>, current: string, rest: seq<string>)
    ensures segments + Keep(Prepend(current, [""] + rest)) == Flush(segments, current) + Keep(rest)
    ensures rest != [] ==> Prepend("", rest) == rest
  {
    assert current + "" == current;
    assert Prepend(current, [""] + rest)[1..] == rest;
    if rest != [] {
      PrependNothing(rest);
    }
  }

  // ---------- the cutter ----------

  /** The separators at which a text is cut, in order. */
  function Separators(st: Lex, s: string): string
    decreases |s|
  {
    if s == [] then []
    else if IsCut(st, s[0]) then [s[0]] + Separators(st, s[1..])
    else Separators(Advance(st, s[0]), s[1..])
  }

  /** Pieces put together again with a separator between each two. */
  function Weave(pieces: seq<string>, seps: string): string
    requires |pieces| == |seps| + 1
  {
    if seps == [] then pieces[0] else pieces[0] + [seps[0]] + Weave(pieces[1..], seps[1..])
  }

  /** Cutting loses nothing but the separators. */
  lemma {:induction false} CutLosesNothing(st: Lex, s: string)
    ensures |Cut(st, s)| == |Separators(st, s)| + 1
    ensures Weave(Cut(st, s), Separators(st, s)) == s
    ensures forall k :: 0 <= k < |Separators(st, s)| ==> IsSeparator(Separators(st, s)[k])
    decreases |s|
  {
    if s == [] {
    } else if IsCut(st, s[0]) {
      CutLosesNothing(st, s[1..]);
      assert ([""] + Cut(st, s[1..]))[1..] == Cut(st, s[1..]);
      assert ([s[0]] + Separators(st, s[1..]))[1..] == Separators(st, s[1..]);
      assert "" + [s[0]] + s[1..] == s;
    } else {
      var pieces, seps := Cut(Advance(st, s[0]), s[1..]), Separators(Advance(st, s[0]), s[1..]);
      CutLosesNothing(Advance(st, s[0]), s[1..]);
      WeavePrepend([s[0]], pieces, seps);
      assert [s[0]] + s[1..] == s;
    }
  }

  lemma WeavePrepend(a: string, pieces: seq<string>, seps: string)
    requires |pieces| == |seps| + 1
    ensures Weave(Prepend(a, pieces), seps) == a + Weave(pieces, seps)
  {
    if seps != [] {
      assert Prepend(a, pieces)[1..] == pieces[1..];
      assert a + pieces[0] + [seps[0]] + Weave(pieces[1..], seps[1..]) == a + (pieces[0] + [seps[0]] + Weave(pieces[1..], seps[1..]));
    }
  }

  /** Nothing to cut, from state `st` on. */
  predicate Whole(st: Lex, s: string)
    decreases |s|
  {
    s == [] || (!IsCut(st, s[0]) && Whole(Advance(st, s[0]), s[1..]))
  }

  lemma {:induction false} WholeIsOnePiece(st: Lex, s: string)
    requires Whole(st, s)
    ensures Cut(st, s) == [s]
    decreases |s|
  {
    if s != [] {
      WholeIsOnePiece(Advance(st, s[0]), s[1..]);
      assert s == [s[0]] + s[1..];
    }
  }

  /** A piece has nothing to cut, from the state it started in. */
  lemma {:induction false} PieceIsWhole(st: Lex, s: string)
    ensures Whole(st, Cut(st, s)[0])
    ensures forall k :: 1 <= k < |Cut(st, s)| ==> Whole(START, Cut(st, s)[k])
    decreases |s|
  {
    if s == [] {
    } else if IsCut(st, s[0]) {
      PieceIsWhole(st, s[1..]);
    } else {
      var rest := Cut(Advance(st, s[0]), s[1..]);
      PieceIsWhole(Advance(st, s[0]), s[1..]);
      assert ([s[0]] + rest[0])[1..] == rest[0];
    }
  }

  lemma {:induction false} WholeTrimLeft(s: string)
    requires Whole(START, s)
    ensures Whole(START, TrimLeft(s))
  {
    if s != [] && IsSpace(s[0]) {
      WholeTrimLeft(s[1..]);
    }
  }

  lemma {:induction false} WholePrefix(st: Lex, s: string, n: nat)
    requires Whole(st, s) && n <= |s|
    ensures Whole(st, s[..n])
    decreases |s|
  {
    if n > 0 {
      WholePrefix(Advance(st, s[0]), s[1..], n - 1);
      assert s[..n][1..] == s[1..][..n - 1];
    }
  }

  lemma WholeTrim(s: string)
    requires Whole(START, s)
    ensures Cut(START, Trim(s)) == [Trim(s)]
  {
    WholeTrimLeft(s);
    var b := TrimRightSplits(TrimLeft(s));
    WholePrefix(START, TrimLeft(s), |Trim(s)|);
    WholeIsOnePiece(START, Trim(s));
  }

  lemma {:induction false} KeepComesFrom(pieces: seq<string>, k: nat)
    requires k < |Keep(pieces)|
    ensures exists j :: 0 <= j < |pieces| && Keep(pieces)[k] == Trim(pieces[j]) && Trim(pieces[j]) != ""
  {
    if Trim(pieces[0]) == "" {
      KeepComesFrom(pieces[1..], k);
    } else if k > 0 {
      KeepComesFrom(pieces[1..], k - 1);
    }
  }

  predicate HasCRLF(s: string) {
    exists i :: 0 <= i < |s| - 1 && s[i] == '\r' && s[i + 1] == '\n'
  }

  lemma {:induction false} ReplaceShrinks(s: string)
    ensures |ReplaceCRLF(s)| <= |s|
    ensures HasCRLF(s) ==> |ReplaceCRLF(s)| < |s|
    ensures !HasCRLF(s) ==> ReplaceCRLF(s) == s
  {
    if s == [] {
    } else if |s| >= 2 && s[0] == '\r' && s[1] == '\n' {
      ReplaceShrinks(s[2..]);
    } else {
      ReplaceShrinks(s[1..]);
      if HasCRLF(s) {
        var i :| 0 <= i < |s| - 1 && s[i] == '\r' && s[i + 1] == '\n';
        assert s[1..][i - 1] == '\r' && s[1..][i - 1 + 1] == '\n';
      }
      if HasCRLF(s[1..]) {
        var i :| 0 <= i < |s[1..]| - 1 && s[1..][i] == '\r' && s[1..][i + 1] == '\n';
        assert s[i + 1] == '\r' && s[i + 1 + 1] == '\n';
      }
    }
  }

  lemma {:induction false} PieceFits(st: Lex, s: string)
    ensures forall k :: 0 <= k < |Cut(st, s)| ==> |Cut(st, s)[k]| <= |s|
    decreases |s|
  {
    if s == [] {
    } else if IsCut(st, s[0]) {
      PieceFits(st, s[1..]);
    } else {
      PieceFits(Advance(st, s[0]), s[1..]);
    }
  }

  lemma TrimOfTrimmed(s: string)
    requires IsTrimmed(s)
    ensures Trim(s) == s
  {
  }

  /** A segment of any command splits into itself, if and only if it has no CR LF left in it. */
  lemma SegmentIsWhole(command: string, k: nat)
    requires k < |Segments(command)|
    ensures Segments(Segments(command)[k]) == [Segments(command)[k]] <==> !HasCRLF(Segments(command)[k])
  {
    var cmd := Trim(ReplaceCRLF(command));
    var pieces, p := Cut(START, cmd), Segments(command)[k];
    KeepComesFrom(pieces, k);
    var j :| 0 <= j < |pieces| && p == Trim(pieces[j]) && Trim(pieces[j]) != "";
    var a, b := TrimSplits(pieces[j]);
    ReplaceShrinks(p);
    if HasCRLF(p) {
      SegmentsFit(p);
      assert forall x :: x in Segments(p) ==> x != p;
      assert p in [p];
    } else {
      PieceIsWhole(START, cmd);
      WholeTrim(pieces[j]);
      TrimOfTrimmed(p);
      assert Keep([p]) == [p] + Keep([]);
    }
  }

  /** A quoted CR CR LF keeps one CR LF, and such a segment does not split into itself. */
  lemma SegmentKeepsCRLF()
    ensures var command := "'\r\r\n'";
            Segments(command) == ["'\r\n'"] && Segments("'\r\n'") != ["'\r\n'"]
  {
    var command, left := "'\r\r\n'", "'\r\n'";
    assert ReplaceCRLF(command) == left by {
      ReplaceShrinks("'\r");
      ReplaceShrinks("'");
      ReplaceMeans("'\r", "'");
      assert command == "'\r" + (['\r', '\n'] + "'");
    }
    TrimOfTrimmed(left);
    var quoted := Lex(true, false, false);
    assert left[1..] == "\r\n'" && left[1..][1..] == "\n'" && left[1..][1..][1..] == "'" && "'"[1..] == "";
    assert Whole(START, "") && Whole(quoted, "'") && Whole(quoted, "\n'") && Whole(quoted, "\r\n'") && Whole(START, left);
    WholeIsOnePiece(START, left);
    assert Keep([left]) == [left] + Keep([]) by {
      assert [left][1..] == [];
    }
    assert left[1] == '\r' && left[1 + 1] == '\n' && HasCRLF(left);
    assert Segments(command)[0] == left;
    SegmentIsWhole(command, 0);
  }

  /** A segment is never longer than what is left of the command without carriage returns. */
  lemma SegmentsFit(s: string)
    ensures forall k :: 0 <= k < |Segments(s)| ==> |Segments(s)[k]| <= |ReplaceCRLF(s)|
  {
    var cmd := Trim(ReplaceCRLF(s));
    var _, _ := TrimSplits(ReplaceCRLF(s));
    PieceFits(START, cmd);
    forall k | 0 <= k < |Segments(s)| ensures |Segments(s)[k]| <= |ReplaceCRLF(s)| {
      KeepComesFrom(Cut(START, cmd), k);
      var j :| 0 <= j < |Cut(START, cmd)| && Segments(s)[k] == Trim(Cut(START, cmd)[j]);
      var _, _ := TrimSplits(Cut(START, cmd)[j]);
    }
  }

  // ---------- what quoting means, by position ----------

  /** The inside of double quotes: a backslash takes the next character with it. */
  predicate IsInner(s: string)
    decreases |s|
  {
    var n := |s| - 1;
    || s == []
    || (s[n] != '\\' && s[n] != '"' && IsInner(s[..n]))
    || (n >= 1 && s[n - 1] == '\\' && IsInner(s[..n - 1]))
  }

  /** One item of a command: a plain character, an escaped one, or a quoted text. */
  predicate IsItem(t: string) {
    var n := |t| - 1;
    || (n == 0 && t[0] != '\\' && t[0] != '\'' && t[0] != '"')
    || (n == 1 && t[0] == '\\')
    || (n >= 1 && t[0] == '\'' && t[n] == '\'' && '\'' !in t[1..n])
    || (n >= 1 && t[0] == '"' && t[n] == '"' && IsInner(t[1..n]))
  }

  /** A text made of whole items: what follows it is neither quoted nor escaped. */
  ghost predicate Complete(s: string)
    decreases |s|
  {
    s == [] || exists n :: 0 <= n < |s| && Complete(s[..n]) && IsItem(s[n..])
  }

  /** A text that ends within the single quotes opened at `n`. */
  ghost predicate SingleFrom(s: string, n: nat) {
    n < |s| && Complete(s[..n]) && s[n] == '\'' && '\'' !in s[n + 1..]
  }

  /** A text that ends within the double quotes opened at `n`, not after a backslash. */
  ghost predicate DoubleFrom(s: string, n: nat) {
    n < |s| && Complete(s[..n]) && s[n] == '"' && IsInner(s[n + 1..])
  }

  ghost predicate EndsInSingle(s: string) {
    exists n :: SingleFrom(s, n)
  }

  ghost predicate EndsInDouble(s: string) {
    exists n :: DoubleFrom(s, n)
  }

  /** A text whose last character escapes the next one. */
  ghost predicate EndsEscaping(s: string) {
    s != [] && s[|s| - 1] == '\\' && (Complete(s[..|s| - 1]) || EndsInDouble(s[..|s| - 1]))
  }

  const SINGLE := Lex(true, false, false)
  const DOUBLE := Lex(false, true, false)

  /** The scanners' state after a text. */
  function Run(st: Lex, s: string): Lex {
    if s == [] then st else Advance(Run(st, s[..|s| - 1]), s[|s| - 1])
  }

  lemma {:induction false} RunConcat(st: Lex, a: string, b: string)
    ensures Run(st, a + b) == Run(Run(st, a), b)
  {
    if b == [] {
      assert a + b == a;
    } else {
      RunConcat(st, a, b[..|b| - 1]);
      assert (a + b)[..|a + b| - 1] == a + b[..|b| - 1];
    }
  }

  lemma {:induction false} SingleGoesOn(s: string)
    requires '\'' !in s
    ensures Run(SINGLE, s) == SINGLE
  {
    if s != [] {
      SingleGoesOn(s[..|s| - 1]);
    }
  }

  lemma {:induction false} DoubleGoesOn(s: string)
    requires IsInner(s)
    ensures Run(DOUBLE, s) == DOUBLE
    decreases |s|
  {
    if s != [] {
      var n := |s| - 1;
      if s[n] != '\\' && s[n] != '"' && IsInner(s[..n]) {
        DoubleGoesOn(s[..n]);
      } else {
        DoubleGoesOn(s[..n - 1]);
        assert s[..n][..n - 1] == s[..n - 1];
        assert Run(DOUBLE, s[..n]) == Advance(DOUBLE, '\\');
      }
    }
  }

  /** Opening a quote, the text in it, and closing it. */
  lemma {:induction false} RunQuoted(t: string)
    requires |t| >= 2
    ensures Run(START, t) == Advance(Run(Advance(START, t[0]), t[1..|t| - 1]), t[|t| - 1])
  {
    var n := |t| - 1;
    RunOne(START, t[0]);
    RunConcat(START, [t[0]], t[1..n]);
    assert [t[0]] + t[1..n] == t[..n];
  }

  lemma {:induction false} RunOne(st: Lex, c: char)
    ensures Run(st, [c]) == Advance(st, c)
  {
    assert [c][..0] == [];
  }

  lemma {:induction false} ItemCloses(t: string)
    requires IsItem(t)
    ensures Run(START, t) == START
  {
    var n := |t| - 1;
    if n == 0 {
      RunOne(START, t[0]);
      assert t == [t[0]];
    } else {
      RunQuoted(t);
      if t[0] == '\\' {
        assert t[1..n] == [];
      } else if t[0] == '\'' {
        SingleGoesOn(t[1..n]);
      } else {
        DoubleGoesOn(t[1..n]);
      }
    }
  }

  lemma {:induction false} CompleteCloses(s: string)
    requires Complete(s)
    ensures Run(START, s) == START
    decreases |s|
  {
    if s != [] {
      var n :| 0 <= n < |s| && Complete(s[..n]) && IsItem(s[n..]);
      CompleteCloses(s[..n]);
      ItemCloses(s[n..]);
      RunConcat(START, s[..n], s[n..]);
      assert s[..n] + s[n..] == s;
    }
  }

  /** A quote that was opened after whole items. */
  lemma {:induction false} RunOpened(s: string, n: nat)
    requires n < |s| && Complete(s[..n])
    ensures Run(START, s) == Run(Advance(START, s[n]), s[n + 1..])
  {
    CompleteCloses(s[..n]);
    RunSplit(s, n);
  }

  lemma {:induction false} RunSplit(s: string, n: nat)
    requires n < |s|
    ensures Run(START, s) == Run(Advance(Run(START, s[..n]), s[n]), s[n + 1..])
  {
    RunSnoc(s, n);
    RunConcat(START, s[..n + 1], s[n + 1..]);
    assert s[..n + 1] + s[n + 1..] == s;
  }

  lemma {:induction false} RunSnoc(s: string, n: nat)
    requires n < |s|
    ensures Run(START, s[..n + 1]) == Advance(Run(START, s[..n]), s[n])
  {
    assert s[..n + 1][..n] == s[..n];
  }

  lemma {:induction false} ShapeGivesState(s: string)
    ensures Complete(s) ==> Run(START, s) == START
    ensures EndsInSingle(s) ==> Run(START, s) == SINGLE
    ensures EndsInDouble(s) ==> Run(START, s) == DOUBLE
  {
    if Complete(s) {
      CompleteCloses(s);
    }
    if n: nat :| SingleFrom(s, n) {
      RunOpened(s, n);
      SingleGoesOn(s[n + 1..]);
    }
    if n: nat :| DoubleFrom(s, n) {
      RunOpened(s, n);
      DoubleGoesOn(s[n + 1..]);
    }
  }

  lemma {:induction false} CompleteMore(s: string, n: nat)
    requires n < |s| && Complete(s[..n]) && IsItem(s[n..])
    ensures Complete(s)
  {
  }

  /** After whole items: a plain character is one more, others open something. */
  lemma {:induction false} AfterComplete(a: string, c: char)
    requires Complete(a)
    ensures match c
            case '\\' => EndsEscaping(a + [c])
            case '\'' => SingleFrom(a + [c], |a|)
            case '"' => DoubleFrom(a + [c], |a|)
            case _ => Complete(a + [c])
  {
    var s := a + [c];
    assert s[..|a|] == a && s[|a|..] == [c] && s[|a| + 1..] == [];
    if IsItem([c]) {
      CompleteMore(s, |a|);
    }
  }

  lemma {:induction false} InsideQuotes(a: string, n: nat, c: char)
    requires n < |a|
    ensures var t := (a + [c])[n..];
            |t| == |a| - n + 1 && t[0] == a[n] && t[|t| - 1] == c && t[1..|t| - 1] == a[n + 1..]
  {
    var t := (a + [c])[n..];
    assert t == a[n..] + [c];
    assert t[1..|t| - 1] == a[n..][1..];
  }

  lemma {:induction false} SingleMore(a: string, n: nat, c: char)
    requires SingleFrom(a, n)
    ensures if c == '\'' then Complete(a + [c]) else SingleFrom(a + [c], n)
  {
    var s := a + [c];
    assert s[..n] == a[..n];
    if c == '\'' {
      InsideQuotes(a, n, c);
      CompleteMore(s, n);
    } else {
      assert s[n + 1..] == a[n + 1..] + [c];
    }
  }

  lemma {:induction false} DoubleMore(a: string, n: nat, c: char)
    requires DoubleFrom(a, n) && c != '\\'
    ensures if c == '"' then Complete(a + [c]) else DoubleFrom(a + [c], n)
  {
    var s := a + [c];
    assert s[..n] == a[..n];
    if c == '"' {
      InsideQuotes(a, n, c);
      CompleteMore(s, n);
    } else {
      assert s[n + 1..] == a[n + 1..] + [c];
    }
  }

  lemma {:induction false} DoubleEscapes(a: string, n: nat, c: char)
    requires DoubleFrom(a, n)
    ensures DoubleFrom(a + ['\\'] + [c], n)
  {
    var s, inner := a + ['\\'] + [c], a[n + 1..];
    assert s[..n] == a[..n];
    var t := inner + ['\\'] + [c];
    assert s[n + 1..] == t;
    assert t[|t| - 2] == '\\' && t[..|t| - 2] == inner;
  }

  lemma {:induction false} CompleteEscapes(a: string, c: char)
    requires Complete(a)
    ensures Complete(a + ['\\'] + [c])
  {
    var s := a + ['\\'] + [c];
    assert s[..|a|] == a && s[|a|..] == ['\\', c];
    CompleteMore(s, |a|);
  }

  lemma {:induction false} AfterEscape(a: string, c: char)
    requires EndsEscaping(a)
    ensures Complete(a + [c]) || EndsInDouble(a + [c])
  {
    var b := a[..|a| - 1];
    assert a == b + ['\\'];
    if Complete(b) {
      CompleteEscapes(b, c);
    } else {
      var n: nat :| DoubleFrom(b, n);
      DoubleEscapes(b, n, c);
    }
  }

  lemma {:induction false} EveryTextEnds(s: string)
    ensures Complete(s) || EndsInSingle(s) || EndsInDouble(s) || EndsEscaping(s)
  {
    if s != [] {
      var a, c := s[..|s| - 1], s[|s| - 1];
      assert s == a + [c];
      EveryTextEnds(a);
      if Complete(a) {
        AfterComplete(a, c);
      } else if n: nat :| SingleFrom(a, n) {
        SingleMore(a, n, c);
      } else if n: nat :| DoubleFrom(a, n) {
        if c != '\\' {
          DoubleMore(a, n, c);
        }
      } else {
        AfterEscape(a, c);
      }
    }
  }

  /** The three flags say of every text exactly how it ends. */
  lemma {:induction false} QuotingMeans(s: string)
    ensures Run(START, s) == START <==> Complete(s)
    ensures Run(START, s) == SINGLE <==> EndsInSingle(s)
    ensures Run(START, s) == DOUBLE <==> EndsInDouble(s)
    ensures Run(START, s).escaped <==> EndsEscaping(s)
  {
    ShapeGivesState(s);
    if s != [] {
      ShapeGivesState(s[..|s| - 1]);
    }
    EveryTextEnds(s);
  }

  // ---------- where the cutter cuts ----------

  /** A separator that is neither quoted nor escaped. */
  ghost predicate CutsAt(s: string, i: nat) {
    i < |s| && Complete(s[..i]) && (s[i] == ';' || s[i] == '\n' || s[i] == '|' || s[i] == '&')
  }

  /** Places from `n` on, in order. */
  ghost predicate Ascending(s: string, n: nat, at: seq<nat>) {
    (forall k :: 0 <= k < |at| ==> n <= at[k] < |s|) && forall j, k :: 0 <= j < k < |at| ==> at[j] < at[k]
  }

  /** All the places at which a text is cut, in order. */
  ghost predicate CutPlaces(s: string, at: seq<nat>) {
    Ascending(s, 0, at) && forall i :: i in at <==> CutsAt(s, i)
  }

  /** The texts between the given places, from `start` on. */
  ghost function Between(s: string, start: nat, at: seq<nat>): seq<string>
    requires start <= |s| && Ascending(s, start, at)
    decreases |at|
  {
    if at == [] then [s[start..]] else [s[start..at[0]]] + Between(s, at[0] + 1, at[1..])
  }

  ghost function CutList(s: string, n: nat): (at: seq<nat>)
    requires n <= |s|
    ensures Ascending(s, n, at) && forall i :: i in at <==> n <= i && CutsAt(s, i)
    decreases |s| - n
  {
    if n == |s| then [] else if CutsAt(s, n) then [n] + CutList(s, n + 1) else CutList(s, n + 1)
  }

  lemma {:induction false} CutOff(s: string, start: nat, n: nat)
    requires start <= n < |s| && CutsAt(s, n) && Cut(START, s[n + 1..]) == Between(s, n + 1, CutList(s, n + 1))
    ensures Prepend(s[start..n], Cut(START, s[n..])) == Between(s, start, CutList(s, n))
  {
    assert s[n..][1..] == s[n + 1..];
    CutHere(s[start..n], Cut(START, s[n + 1..]));
    assert CutList(s, n)[1..] == CutList(s, n + 1);
  }

  lemma {:induction false} CutOn(s: string, start: nat, n: nat, st: Lex)
    requires start <= n < |s| && !IsCut(st, s[n])
    ensures Prepend(s[start..n], Cut(st, s[n..])) == Prepend(s[start..n + 1], Cut(Advance(st, s[n]), s[n + 1..]))
  {
    assert s[n..][1..] == s[n + 1..];
    PrependMore(s[start..n], [s[n]], Cut(Advance(st, s[n]), s[n + 1..]));
    assert s[start..n] + [s[n]] == s[start..n + 1];
  }

  lemma {:induction false} CutMeans(s: string, n: nat)
    requires n < |s|
    ensures CutsAt(s, n) <==> IsCut(Run(START, s[..n]), s[n])
  {
    QuotingMeans(s[..n]);
  }

  /** From `n` on, with the current piece begun at `start`. */
  lemma {:induction false} CutFrom(s: string, start: nat, n: nat)
    requires start <= n <= |s|
    ensures Prepend(s[start..n], Cut(Run(START, s[..n]), s[n..])) == Between(s, start, CutList(s, n))
    decreases |s| - n
  {
    if n == |s| {
      assert s[start..n] + "" == s[start..];
    } else {
      RunSnoc(s, n);
      CutMeans(s, n);
      if CutsAt(s, n) {
        CutFrom(s, n + 1, n + 1);
        PrependNothing(Cut(START, s[n + 1..]));
        CutOff(s, start, n);
      } else {
        CutFrom(s, start, n + 1);
        CutOn(s, start, n, Run(START, s[..n]));
      }
    }
  }

  lemma CutHere(a: string, pieces: seq<string>)
    ensures Prepend(a, [""] + pieces) == [a] + pieces
  {
    assert a + "" == a;
  }

  /** A text is cut at its bare separators, at every one and nowhere else. */
  lemma {:induction false} CutByPosition(s: string)
    ensures exists at :: CutPlaces(s, at) && Cut(START, s) == Between(s, 0, at)
  {
    CutFrom(s, 0, 0);
    assert s[..0] == "" && s[0..0] == "" && s[0..] == s;
    PrependNothing(Cut(START, s));
    assert CutPlaces(s, CutList(s, 0));
  }

  lemma {:induction false} SegmentsByPosition(command: string)
    ensures exists at :: CutPlaces(Trim(ReplaceCRLF(command)), at) && Segments(command) == Keep(Between(Trim(ReplaceCRLF(command)), 0, at))
  {
    CutByPosition(Trim(ReplaceCRLF(command)));
  }

  /** Where nothing was quoted or escaped before, nothing is. */
  lemma {:induction false} PlainIsComplete(s: string)
    requires '\\' !in s && '\'' !in s && '"' !in s
    ensures Complete(s)
  {
    if s != [] {
      var n := |s| - 1;
      PlainIsComplete(s[..n]);
      AfterComplete(s[..n], s[n]);
      assert s == s[..n] + [s[n]];
    }
  }

  // ---------- line ends ----------

  /** A CR LF becomes an LF wherever it stands. */
  lemma {:induction false} ReplaceMeans(a: string, b: string)
    ensures ReplaceCRLF(a + (['\r', '\n'] + b)) == ReplaceCRLF(a) + (['\n'] + ReplaceCRLF(b))
    decreases |a|
  {
    var c, d := ['\r', '\n'] + b, ['\n'] + ReplaceCRLF(b);
    if a == [] {
      ReplaceFirst(b);
      assert a + c == c && [] + d == d;
    } else if |a| >= 2 && a[0] == '\r' && a[1] == '\n' {
      ReplaceMeans(a[2..], b);
      ReplaceFirst(a[2..] + c);
      Assoc(['\r', '\n'], a[2..], c);
      Assoc(['\n'], ReplaceCRLF(a[2..]), d);
      assert a == ['\r', '\n'] + a[2..];
    } else {
      ReplaceMeans(a[1..], b);
      ReplaceNext(a[0], a[1..] + c);
      Assoc([a[0]], a[1..], c);
      Assoc([a[0]], ReplaceCRLF(a[1..]), d);
      assert a == [a[0]] + a[1..];
    }
  }

  lemma {:induction false} ReplaceFirst(s: string)
    ensures ReplaceCRLF(['\r', '\n'] + s) == ['\n'] + ReplaceCRLF(s)
  {
    assert (['\r', '\n'] + s)[2..] == s;
  }

  lemma {:induction false} ReplaceNext(c: char, s: string)
    requires !(s != [] && c == '\r' && s[0] == '\n')
    ensures ReplaceCRLF([c] + s) == [c] + ReplaceCRLF(s)
  {
    assert ([c] + s)[1..] == s;
  }

  lemma Assoc(a: string, b: string, c: string)
    ensures a + b + c == a + (b + c)
  {
  }

  // ---------- the construct scanner, and what both agree on ----------

  /** A construct the cutter does not understand begins here: a backtick, a command or process
      substitution, or a heredoc outside double quotes. */
  predicate BeginsConstruct(st: Lex, s: string) {
    && s != [] && !st.escaped && !st.inSingle
    && (|| s[0] == '`'
        || (|s| > 1 && s[0] == '$' && s[1] == '(')
        || (|s| > 1 && !st.inDouble && s[0] == '<' && s[1] == '<')
        || (|s| > 1 && s[0] == '<' && s[1] == '(')
        || (|s| > 1 && s[0] == '>' && s[1] == '('))
  }

  predicate Unsupported(st: Lex, s: string)
    decreases |s|
  {
    s != [] && (BeginsConstruct(st, s) || Unsupported(Advance(st, s[0]), s[1..]))
  }

  /** The position is neither escaped nor within single quotes. */
  ghost predicate IsLive(s: string, i: nat)
    requires i <= |s|
  {
    Complete(s[..i]) || EndsInDouble(s[..i])
  }

  /** A construct that the cutter does not understand stands at `i`. */
  ghost predicate ConstructAt(s: string, i: nat) {
    && i < |s| && IsLive(s, i)
    && (|| s[i] == '`'
        || (i + 1 < |s| && (s[i..i + 2] == "$(" || s[i..i + 2] == "<(" || s[i..i + 2] == ">("))
        || (i + 1 < |s| && s[i..i + 2] == "<<" && Complete(s[..i])))
  }

  ghost predicate HasConstruct(s: string) {
    exists i :: ConstructAt(s, i)
  }

  lemma {:induction false} FindsByState(st: Lex, s: string)
    ensures Unsupported(st, s) <==> exists i :: 0 <= i < |s| && BeginsConstruct(Run(st, s[..i]), s[i..])
    decreases |s|
  {
    if s != [] {
      var next, rest := Advance(st, s[0]), s[1..];
      FindsByState(next, rest);
      forall i | 0 <= i < |rest| ensures Run(next, rest[..i]) == Run(st, s[..i + 1]) && rest[i..] == s[i + 1..] {
        RunOne(st, s[0]);
        RunConcat(st, [s[0]], rest[..i]);
        assert [s[0]] + rest[..i] == s[..i + 1];
      }
      assert s[..0] == [] && s[0..] == s;
      if i :| 0 <= i < |rest| && BeginsConstruct(Run(next, rest[..i]), rest[i..]) {
        assert BeginsConstruct(Run(st, s[..i + 1]), s[i + 1..]);
      }
      if i :| 0 < i < |s| && BeginsConstruct(Run(st, s[..i]), s[i..]) {
        assert BeginsConstruct(Run(next, rest[..i - 1]), rest[i - 1..]);
      }
    }
  }

  lemma {:induction false} BeginsMeans(s: string, i: nat)
    requires i < |s|
    ensures BeginsConstruct(Run(START, s[..i]), s[i..]) <==> ConstructAt(s, i)
  {
    QuotingMeans(s[..i]);
    EveryTextEnds(s[..i]);
    var c := s[i];
    if i + 1 < |s| {
      assert s[i..i + 2] == [c, s[i + 1]] && s[i..][1] == s[i + 1];
    }
  }

  /** What the scanner finds are the constructs, wherever they stand. */
  lemma {:induction false} UnsupportedMeans(s: string)
    ensures Unsupported(START, s) <==> HasConstruct(s)
  {
    FindsByState(START, s);
    forall i: nat | i < |s| ensures BeginsConstruct(Run(START, s[..i]), s[i..]) <==> ConstructAt(s, i) {
      BeginsMeans(s, i);
    }
    if i: nat :| ConstructAt(s, i) {
      assert BeginsConstruct(Run(START, s[..i]), s[i..]);
    }
  }

  method HasUnsupportedShellConstructs(command: string) returns (found: bool)
    ensures found <==> HasConstruct(command)
  {
    UnsupportedMeans(command);
    var inSingle, inDouble, escaped := false, false, false;
    var i := 0;
    while i < |command|
      invariant 0 <= i <= |command|
      invariant Unsupported(START, command) == Unsupported(Lex(inSingle, inDouble, escaped), command[i..])
    {
      var ch := command[i];
      assert command[i..][0] == ch && command[i..][1..] == command[i + 1..];
      assert i + 1 < |command| ==> command[i..][1] == command[i + 1];
      if escaped {
        escaped := false;
      } else if ch == '\\' && !inSingle {
        escaped := true;
      } else if ch == '\'' && !inDouble {
        inSingle := !inSingle;
      } else if ch == '"' && !inSingle {
        inDouble := !inDouble;
      } else if !inSingle {
        if ch == '`' {
          return true;
        }
        if ch == '$' && i + 1 < |command| && command[i + 1] == '(' {
          return true;
        }
        if !inDouble && ch == '<' && i + 1 < |command| && command[i + 1] == '<' {
          return true;
        }
        if ch == '<' && i + 1 < |command| && command[i + 1] == '(' {
          return true;
        }
        if ch == '>' && i + 1 < |command| && command[i + 1] == '(' {
          return true;
        }
      }
      i := i + 1;
    }
    return false;
  }

  /** The first piece from state `st`, or a later one, has a construct. */
  predicate PiecesUnsupported(st: Lex, pieces: seq<string>)
    requires pieces != []
  {
    Unsupported(st, pieces[0]) || LaterUnsupported(pieces)
  }

  predicate LaterUnsupported(pieces: seq<string>) {
    exists k :: 1 <= k < |pieces| && Unsupported(START, pieces[k])
  }

  /** The construct scanner finds something in a text exactly when it does in one of the
      pieces the cutter makes of it. */
  lemma {:induction false} ScanPieces(st: Lex, s: string)
    ensures Unsupported(st, s) <==> PiecesUnsupported(st, Cut(st, s))
    decreases |s|
  {
    if s == [] {
    } else if IsCut(st, s[0]) {
      ScanPieces(st, s[1..]);
      ScanAfterCut(Cut(st, s[1..]));
    } else {
      ScanPieces(Advance(st, s[0]), s[1..]);
      ScanLonger(st, s, Cut(Advance(st, s[0]), s[1..]));
    }
  }

  lemma ScanAfterCut(rest: seq<string>)
    requires rest != []
    ensures PiecesUnsupported(START, [""] + rest) <==> PiecesUnsupported(START, rest)
  {
    var pieces := [""] + rest;
    assert forall k :: 0 <= k < |rest| ==> rest[k] == pieces[k + 1];
    if Unsupported(START, rest[0]) {
      assert Unsupported(START, pieces[1]);
    }
    if k :| 1 <= k < |rest| && Unsupported(START, rest[k]) {
      assert Unsupported(START, pieces[k + 1]);
    }
  }

  lemma ScanLonger(st: Lex, s: string, rest: seq<string>)
    requires s != [] && !IsCut(st, s[0]) && rest == Cut(Advance(st, s[0]), s[1..])
    ensures PiecesUnsupported(st, Prepend([s[0]], rest)) <==> BeginsConstruct(st, s) || PiecesUnsupported(Advance(st, s[0]), rest)
  {
    var pieces := Prepend([s[0]], rest);
    assert pieces[0][1..] == rest[0];
    assert forall k :: 1 <= k < |rest| ==> rest[k] == pieces[k];
    assert LaterUnsupported(pieces) <==> LaterUnsupported(rest);
    SameStart(st, s, rest[0]);
  }

  /** Looking one character ahead sees the same in the text and in its first piece. */
  lemma SameStart(st: Lex, s: string, piece: string)
    requires s != [] && piece == Cut(Advance(st, s[0]), s[1..])[0]
    ensures BeginsConstruct(st, s) <==> BeginsConstruct(st, [s[0]] + piece)
  {
    if |s| > 1 && !IsCut(Advance(st, s[0]), s[1]) {
      assert piece[0] == s[1];
    }
  }

  lemma {:induction false} ScanTrimLeft(s: string)
    ensures Unsupported(START, TrimLeft(s)) == Unsupported(START, s)
  {
    if s != [] && IsSpace(s[0]) {
      ScanTrimLeft(s[1..]);
    }
  }

  lemma {:induction false} ScanSnocSpace(st: Lex, s: string, c: char)
    requires IsSpace(c)
    ensures Unsupported(st, s + [c]) == Unsupported(st, s)
    decreases |s|
  {
    if s == [] {
      assert [c][1..] == [];
    } else {
      assert (s + [c])[1..] == s[1..] + [c];
      ScanSnocSpace(Advance(st, s[0]), s[1..], c);
    }
  }

  lemma {:induction false} ScanTrimRight(st: Lex, s: string)
    ensures Unsupported(st, TrimRight(s)) == Unsupported(st, s)
  {
    if s != [] && IsSpace(s[|s| - 1]) {
      assert s == s[..|s| - 1] + [s[|s| - 1]];
      ScanSnocSpace(st, s[..|s| - 1], s[|s| - 1]);
      ScanTrimRight(st, s[..|s| - 1]);
    }
  }

  lemma ScanTrim(s: string)
    ensures Unsupported(START, Trim(s)) == Unsupported(START, s)
  {
    ScanTrimLeft(s);
    ScanTrimRight(START, TrimLeft(s));
  }

  /** Turning CR LF into LF changes neither quoting nor what the scanner finds. */
  lemma {:induction false} ScanReplaced(st: Lex, s: string)
    ensures Unsupported(st, ReplaceCRLF(s)) == Unsupported(st, s)
    decreases |s|
  {
    if s == [] {
    } else if |s| >= 2 && s[0] == '\r' && s[1] == '\n' {
      var mid := Advance(st, '\r');
      assert s[1..][1..] == s[2..] && s[1..] != [];
      assert Advance(mid, '\n') == Advance(st, '\n');
      ScanReplaced(Advance(st, '\n'), s[2..]);
      assert (['\n'] + ReplaceCRLF(s[2..]))[1..] == ReplaceCRLF(s[2..]);
    } else {
      ScanReplaced(Advance(st, s[0]), s[1..]);
      var r := ReplaceCRLF(s[1..]);
      assert ([s[0]] + r)[1..] == r;
      assert BeginsConstruct(st, s) == BeginsConstruct(st, [s[0]] + r);
    }
  }

  lemma {:induction false} KeepHolds(pieces: seq<string>, j: nat)
    requires j < |pieces| && Trim(pieces[j]) != ""
    ensures exists k :: 0 <= k < |Keep(pieces)| && Keep(pieces)[k] == Trim(pieces[j])
  {
    if j == 0 {
      assert Keep(pieces)[0] == Trim(pieces[0]);
    } else {
      KeepHolds(pieces[1..], j - 1);
      var k :| 0 <= k < |Keep(pieces[1..])| && Keep(pieces[1..])[k] == Trim(pieces[j]);
      if Trim(pieces[0]) != "" {
        assert Keep(pieces)[k + 1] == Trim(pieces[j]);
      } else {
        assert Keep(pieces)[k] == Trim(pieces[j]);
      }
    }
  }

  /** For every command: it holds a construct if and only if one of its segments does. A
      construct can neither hide from the cutter nor straddle two segments. */
  lemma {:induction false} ScannersAgree(command: string)
    ensures HasConstruct(command) <==> exists k :: 0 <= k < |Segments(command)| && HasConstruct(Segments(command)[k])
  {
    SegmentsAgree(command);
    UnsupportedMeans(command);
    forall k | 0 <= k < |Segments(command)| ensures Unsupported(START, Segments(command)[k]) <==> HasConstruct(Segments(command)[k]) {
      UnsupportedMeans(Segments(command)[k]);
    }
  }

  lemma {:induction false} SegmentsAgree(command: string)
    ensures Unsupported(START, command) <==>
            exists k :: 0 <= k < |Segments(command)| && Unsupported(START, Segments(command)[k])
  {
    var cmd := Trim(ReplaceCRLF(command));
    var pieces := Cut(START, cmd);
    ScanReplaced(START, command);
    ScanTrim(ReplaceCRLF(command));
    ScanPieces(START, cmd);
    if Unsupported(START, cmd) {
      var j :| 0 <= j < |pieces| && Unsupported(START, pieces[j]);
      ScanTrim(pieces[j]);
      KeepHolds(pieces, j);
      var k :| 0 <= k < |Keep(pieces)| && Keep(pieces)[k] == Trim(pieces[j]);
      assert Unsupported(START, Segments(command)[k]);
    }
    forall k | 0 <= k < |Segments(command)| && Unsupported(START, Segments(command)[k])
      ensures Unsupported(START, cmd)
    {
      KeepComesFrom(pieces, k);
      var j :| 0 <= j < |pieces| && Segments(command)[k] == Trim(pieces[j]);
      ScanTrim(pieces[j]);
    }
  }
}
