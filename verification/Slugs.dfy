/** Slug ids of internal/agent/slug.go: making a slug from a name, checking one, and finding one
    that is not taken. Text is ASCII. */
module Slugs {
  import opened Text

  const MAX_SLUG_LENGTH := 128
  const MAX_SUFFIX_LENGTH := 10
  const MAX_SUFFIX := 1_000_000_000

  predicate IsAlnum(c: char) {
    'a' <= c <= 'z' || '0' <= c <= '9'
  }

  function LowerChar(c: char): char {
    if 'A' <= c <= 'Z' then c - 'A' + 'a' else c
  }

  const LETTERS := "abcdefghijklmnopqrstuvwxyz"
  const CAPITALS := "ABCDEFGHIJKLMNOPQRSTUVWXYZ"
  const DIGITS := "0123456789"

  /** Slugs are made of small letters and digits. */
  lemma Alphabet(c: char)
    ensures IsAlnum(c) <==> c in LETTERS || c in DIGITS
  {
    LettersAre(c);
    DigitsAre(c);
  }

  lemma LettersAre(c: char)
    ensures c in LETTERS <==> 'a' <= c <= 'z'
  {
    if 'a' <= c <= 'z' {
      assert LETTERS[c as int - 'a' as int] == c;
    }
  }

  lemma DigitsAre(c: char)
    ensures c in DIGITS <==> '0' <= c <= '9'
  {
    if '0' <= c <= '9' {
      assert DIGITS[c as int - '0' as int] == c;
    }
  }

  /** Capitals become small letters. */
  lemma LowersCapitals(k: nat)
    requires k < 26
    ensures LowerChar(CAPITALS[k]) == LETTERS[k]
  {
    assert CAPITALS[k] == 'A' + k as char && LETTERS[k] == 'a' + k as char;
  }

  /** Nothing else changes. */
  lemma KeepsOthers(c: char)
    ensures LowerChar(c) == c || c in CAPITALS
  {
    if 'A' <= c <= 'Z' {
      assert CAPITALS[c as int - 'A' as int] == c;
    }
  }

  function Lower(s: string): string {
    seq(|s|, k requires 0 <= k < |s| => LowerChar(s[k]))
  }

  /** Each run of other characters becomes one hyphen. */
  function Squeeze(s: string): string {
    if s == [] then []
    else if IsAlnum(s[0]) then [s[0]] + Squeeze(s[1..])
    else if |s| > 1 && !IsAlnum(s[1]) then Squeeze(s[1..])
    else ['-'] + Squeeze(s[1..])
  }

  function DropLeft(s: string): string {
    if s != [] && s[0] == '-' then DropLeft(s[1..]) else s
  }

  function DropRight(s: string): string {
    if s != [] && s[|s| - 1] == '-' then DropRight(s[..|s| - 1]) else s
  }

  function GenerateSlugID(name: string): string {
    DropRight(DropLeft(Squeeze(Lower(Trim(name)))))
  }

  // ---------- the slug pattern ----------

  predicate IsWord(s: string) {
    s != [] && forall k :: 0 <= k < |s| ==> IsAlnum(s[k])
  }

  /** Words separated by single hyphens: the pattern that ids are checked against. */
  ghost predicate MatchesPattern(s: string) {
    IsWord(s) || exists k :: 0 <= k < |s| && IsWord(s[..k]) && s[k] == '-' && MatchesPattern(s[k + 1..])
  }

  /** The same, character by character. */
  predicate IsSlug(s: string) {
    && s != [] && IsAlnum(s[0]) && IsAlnum(s[|s| - 1])
    && (forall k :: 0 <= k < |s| ==> IsAlnum(s[k]) || s[k] == '-')
    && (forall k :: 0 <= k < |s| - 1 ==> IsAlnum(s[k]) || IsAlnum(s[k + 1]))
  }

  /** A word, a hyphen and a slug make a slug. */
  lemma SlugJoin(s: string, k: nat)
    requires k < |s| && IsWord(s[..k]) && s[k] == '-' && IsSlug(s[k + 1..])
    ensures IsSlug(s)
  {
    var a, b := s[..k], s[k + 1..];
    assert forall j :: 0 <= j < k ==> s[j] == a[j];
    assert forall j :: k < j < |s| ==> s[j] == b[j - k - 1];
    assert IsAlnum(a[0]) && IsAlnum(b[0]);
  }

  /** A slug splits at its first hyphen into a word and a slug. */
  lemma SlugSplit(s: string, k: nat)
    requires IsSlug(s) && 0 < k < |s| - 1 && s[k] == '-' && forall j :: 0 <= j < k ==> IsAlnum(s[j])
    ensures IsWord(s[..k]) && IsSlug(s[k + 1..])
  {
    var b := s[k + 1..];
    assert forall j :: 0 <= j < |b| ==> b[j] == s[j + k + 1];
    assert IsAlnum(s[k]) || IsAlnum(s[k + 1]);
    assert b[|b| - 1] == s[|s| - 1];
  }

  lemma {:induction false} PatternIsSlug(s: string)
    ensures MatchesPattern(s) <==> IsSlug(s)
  {
    if MatchesPattern(s) && !IsWord(s) {
      var k :| 0 <= k < |s| && IsWord(s[..k]) && s[k] == '-' && MatchesPattern(s[k + 1..]);
      PatternIsSlug(s[k + 1..]);
      SlugJoin(s, k);
    }
    if IsSlug(s) && !IsWord(s) {
      var k := FirstHyphen(s, 0);
      SlugSplit(s, k);
      PatternIsSlug(s[k + 1..]);
    }
  }

  lemma FirstHyphen(s: string, i: nat) returns (k: nat)
    requires IsSlug(s) && !IsWord(s) && i <= |s| && forall j :: 0 <= j < i ==> IsAlnum(s[j])
    ensures 0 < k < |s| - 1 && s[k] == '-' && forall j :: 0 <= j < k ==> IsAlnum(s[j])
    decreases |s| - i
  {
    if IsAlnum(s[i]) {
      k := FirstHyphen(s, i + 1);
    } else {
      k := i;
    }
  }

  /** What validateSlugID accepts. */
  ghost predicate IsValidID(id: string) {
    id != "" && |id| <= MAX_SLUG_LENGTH && MatchesPattern(id)
  }

  // ---------- making a slug ----------

  /** Hyphens and words only, never two hyphens in a row. */
  predicate Tidy(s: string) {
    && (forall k :: 0 <= k < |s| ==> IsAlnum(s[k]) || s[k] == '-')
    && (forall k :: 0 <= k < |s| - 1 ==> IsAlnum(s[k]) || IsAlnum(s[k + 1]))
  }

  lemma {:induction false} SqueezeIsTidy(s: string)
    ensures Tidy(Squeeze(s))
    ensures s != [] ==> Squeeze(s) != [] && (IsAlnum(Squeeze(s)[0]) <==> IsAlnum(s[0]))
    ensures (exists k :: 0 <= k < |Squeeze(s)| && IsAlnum(Squeeze(s)[k])) <==> (exists k :: 0 <= k < |s| && IsAlnum(s[k]))
  {
    if s != [] {
      SqueezeIsTidy(s[1..]);
      var t := Squeeze(s[1..]);
      assert forall k :: 1 <= k < |s| ==> s[k] == s[1..][k - 1];
      if IsAlnum(s[0]) {
        assert Squeeze(s)[0] == s[0];
        assert forall k :: 1 <= k < |Squeeze(s)| ==> Squeeze(s)[k] == t[k - 1];
      } else if |s| > 1 && !IsAlnum(s[1]) {
        if k :| 0 <= k < |s[1..]| && IsAlnum(s[1..][k]) {
          assert IsAlnum(s[k + 1]);
        }
      } else {
        assert forall k :: 1 <= k < |Squeeze(s)| ==> Squeeze(s)[k] == t[k - 1];
        if k :| 0 <= k < |t| && IsAlnum(t[k]) {
          assert IsAlnum(Squeeze(s)[k + 1]);
        }
        if k :| 0 <= k < |s[1..]| && IsAlnum(s[1..][k]) {
          assert IsAlnum(s[k + 1]);
        }
      }
    }
  }

  lemma {:induction false} DropLeftTidy(s: string)
    requires Tidy(s)
    ensures Tidy(DropLeft(s)) && (DropLeft(s) == [] || IsAlnum(DropLeft(s)[0]))
    ensures DropLeft(s) == [] <==> forall k :: 0 <= k < |s| ==> !IsAlnum(s[k])
  {
    if s != [] && s[0] == '-' {
      assert forall k :: 1 <= k < |s| ==> s[k] == s[1..][k - 1];
      DropLeftTidy(s[1..]);
    }
  }

  lemma {:induction false} DropRightTidy(s: string)
    requires Tidy(s) && (s == [] || IsAlnum(s[0]))
    ensures s != [] ==> IsSlug(DropRight(s))
    ensures s == [] ==> DropRight(s) == []
  {
    if s != [] && s[|s| - 1] == '-' {
      DropRightTidy(s[..|s| - 1]);
    }
  }

  /** A name with a letter or digit becomes a slug; a name without becomes nothing. */
  lemma GenerateMakesSlug(name: string)
    ensures var s := Lower(Trim(name));
            if exists k :: 0 <= k < |s| && IsAlnum(s[k]) then IsSlug(GenerateSlugID(name)) else GenerateSlugID(name) == ""
  {
    var s := Lower(Trim(name));
    SqueezeIsTidy(s);
    DropLeftTidy(Squeeze(s));
    DropRightTidy(DropLeft(Squeeze(s)));
  }

  lemma {:induction false} SqueezeTidy(s: string)
    requires Tidy(s)
    ensures Squeeze(s) == s
  {
    if s != [] {
      assert forall k :: 1 <= k < |s| ==> s[k] == s[1..][k - 1];
      SqueezeTidy(s[1..]);
      assert s == [s[0]] + s[1..];
    }
  }

  /** A slug is its own slug. */
  lemma {:induction false} SlugIsItsOwn(s: string)
    requires IsSlug(s)
    ensures GenerateSlugID(s) == s
  {
    assert Trim(s) == s;
    assert Lower(s) == s;
    SqueezeTidy(s);
  }

  /** Making a slug twice is making it once. */
  lemma GenerateIdempotent(name: string)
    ensures GenerateSlugID(GenerateSlugID(name)) == GenerateSlugID(name)
  {
    GenerateMakesSlug(name);
    if GenerateSlugID(name) != "" {
      SlugIsItsOwn(GenerateSlugID(name));
    } else {
      assert Trim("") == "" && Lower("") == "";
    }
  }

  /** The letters and digits of a text. */
  function Letters(s: string): string {
    if s == [] then [] else if IsAlnum(s[0]) then [s[0]] + Letters(s[1..]) else Letters(s[1..])
  }

  lemma {:induction false} LettersConcat(a: string, b: string)
    ensures Letters(a + b) == Letters(a) + Letters(b)
  {
    if a == [] {
      assert a + b == b;
    } else {
      assert (a + b)[1..] == a[1..] + b;
      LettersConcat(a[1..], b);
    }
  }

  lemma {:induction false} NoLetters(s: string)
    requires forall k :: 0 <= k < |s| ==> !IsAlnum(s[k])
    ensures Letters(s) == []
  {
    if s != [] {
      NoLetters(s[1..]);
    }
  }

  lemma {:induction false} SqueezeLetters(s: string)
    ensures Letters(Squeeze(s)) == Letters(s)
  {
    if s != [] {
      SqueezeLetters(s[1..]);
      assert forall c: char, t: string :: ([c] + t)[1..] == t;
    }
  }

  lemma {:induction false} DropLetters(s: string)
    ensures Letters(DropLeft(s)) == Letters(s) && Letters(DropRight(s)) == Letters(s)
    decreases |s|
  {
    if s != [] && s[0] == '-' {
      DropLetters(s[1..]);
    }
    if s != [] && s[|s| - 1] == '-' {
      var n := |s| - 1;
      DropLetters(s[..n]);
      LettersConcat(s[..n], s[n..]);
      assert s == s[..n] + s[n..] && s[n..] == "-";
    }
  }

  /** Trimming takes off no letters. */
  lemma TrimLetters(s: string)
    ensures Letters(Lower(Trim(s))) == Letters(Lower(s))
  {
    var a, b := TrimSplits(s);
    var t := Trim(s);
    assert Lower(s) == Lower(a) + Lower(t) + Lower(b);
    LettersConcat(Lower(a) + Lower(t), Lower(b));
    LettersConcat(Lower(a), Lower(t));
    NoLetters(Lower(a));
    NoLetters(Lower(b));
  }

  /** The slug of a name has the letters and digits of the name, in lower case and in order. */
  lemma GenerateKeepsLetters(name: string)
    ensures Letters(GenerateSlugID(name)) == Letters(Lower(name))
  {
    var s := Squeeze(Lower(Trim(name)));
    TrimLetters(name);
    SqueezeLetters(Lower(Trim(name)));
    DropLetters(s);
    DropLetters(DropLeft(s));
  }

  // ---------- finding a free one ----------

  /** The name's slug, or the fallback, cut to leave room for a suffix. */
  function Base(name: string, fallback: string): (b: string)
    ensures |b| <= MAX_SLUG_LENGTH - MAX_SUFFIX_LENGTH
  {
    var slug := GenerateSlugID(name);
    var b := if slug == "" then fallback else slug;
    if |b| > MAX_SLUG_LENGTH - MAX_SUFFIX_LENGTH then b[..MAX_SLUG_LENGTH - MAX_SUFFIX_LENGTH] else b
  }

  function Candidate(base: string, i: nat): string {
    base + "-" + Decimal(i)
  }

  lemma CandidateInjective(base: string, i: nat, j: nat)
    requires Candidate(base, i) == Candidate(base, j)
    ensures i == j
  {
    assert Candidate(base, i)[|base| + 1..] == Decimal(i) && Candidate(base, j)[|base| + 1..] == Decimal(j);
    DecimalInjective(i, j);
  }

  /** Every id the search tries below `n` is taken. */
  ghost predicate AllTaken(base: string, existing: set<string>, n: nat) {
    base in existing && forall j :: 2 <= j < n ==> Candidate(base, j) in existing
  }

  /** So many taken ids need as many existing ones. */
  lemma {:induction false} TakenNeedsMany(base: string, existing: set<string>, n: nat)
    requires n >= 2 && AllTaken(base, existing, n)
    ensures |existing| >= n - 1
  {
    if n == 2 {
      assert existing == {base} + (existing - {base});
    } else {
      var c := Candidate(base, n - 1);
      assert |c| > |base|;
      forall j | 2 <= j < n - 1 ensures Candidate(base, j) in existing - {c} {
        if Candidate(base, j) == c {
          CandidateInjective(base, j, n - 1);
        }
      }
      TakenNeedsMany(base, existing - {c}, n - 1);
    }
  }

  lemma CandidateLength(base: string, i: nat)
    requires i <= MAX_SUFFIX
    ensures i < MAX_SUFFIX ==> |Candidate(base, i)| <= |base| + MAX_SUFFIX_LENGTH
    ensures i == MAX_SUFFIX ==> |Candidate(base, i)| == |base| + MAX_SUFFIX_LENGTH + 1
  {
    assert Pow10(3) == 1000;
    assert Pow10(6) == 1_000_000;
    assert Pow10(9) == 1_000_000_000;
    if i < MAX_SUFFIX {
      DecimalLength(i, 9);
    } else {
      assert |Decimal(1)| == 1;
      assert |Decimal(1000)| == 4;
      assert |Decimal(1_000_000)| == 7;
      assert |Decimal(1_000_000_000)| == 10;
    }
  }

  /** A suffix keeps a slug a slug, and cannot make one of anything else. */
  lemma SuffixKeepsSlug(base: string, i: nat)
    ensures IsSlug(Candidate(base, i)) <==> IsSlug(base)
  {
    var c := Candidate(base, i);
    assert forall k :: 0 <= k < |base| ==> c[k] == base[k];
    assert c[|base|] == '-';
    assert forall k :: |base| < k < |c| ==> c[k] == Decimal(i)[k - |base| - 1];
    if IsSlug(c) {
      assert base != [] by {
        assert IsAlnum(c[0]);
      }
      var k := |base| - 1;
      assert !IsAlnum(c[k + 1]);
      assert IsAlnum(c[k]);
    }
  }

  /** Finds a free id. With fewer than 999,999,999 ids it always succeeds within the length
      limit; the last resort may be taken itself, and is one too long for the longest base. */
  method UniqueID(name: string, existing: set<string>, fallback: string) returns (id: string)
    ensures var base := Base(name, fallback);
            && (!AllTaken(base, existing, MAX_SUFFIX) ==> id !in existing && |id| <= MAX_SLUG_LENGTH)
            && (AllTaken(base, existing, MAX_SUFFIX) ==> id == Candidate(base, MAX_SUFFIX))
            && (|id| > MAX_SLUG_LENGTH <==> AllTaken(base, existing, MAX_SUFFIX) && |base| == MAX_SLUG_LENGTH - MAX_SUFFIX_LENGTH)
            && (IsSlug(id) <==> IsSlug(base))
            && (base !in existing ==> id == base)
            && (base in existing ==> exists i :: 2 <= i <= MAX_SUFFIX && AllTaken(base, existing, i) && id == Candidate(base, i))
    ensures |existing| < MAX_SUFFIX - 1 ==> id !in existing && |id| <= MAX_SLUG_LENGTH
    ensures |existing| < MAX_SUFFIX - 1 ==> (IsValidID(id) <==> IsSlug(Base(name, fallback)))
  {
    var base := Base(name, fallback);
    GenerateMakesSlug(name);
    if base !in existing {
      PatternIsSlug(base);
      return base;
    }
    if |existing| < MAX_SUFFIX - 1 && AllTaken(base, existing, MAX_SUFFIX) {
      TakenNeedsMany(base, existing, MAX_SUFFIX);
    }
    for i := 2 to MAX_SUFFIX
      invariant AllTaken(base, existing, i)
    {
      id := Candidate(base, i);
      if id !in existing {
        CandidateLength(base, i);
        SuffixKeepsSlug(base, i);
        PatternIsSlug(id);
        return;
      }
    }
    id := Candidate(base, MAX_SUFFIX);
    CandidateLength(base, MAX_SUFFIX);
    SuffixKeepsSlug(base, MAX_SUFFIX);
  }

  /** The base made from a name is a slug unless the name's slug is cut right after a hyphen. */
  lemma BaseIsSlug(name: string, fallback: string)
    requires GenerateSlugID(name) != ""
    ensures var slug, room := GenerateSlugID(name), MAX_SLUG_LENGTH - MAX_SUFFIX_LENGTH;
            IsSlug(Base(name, fallback)) <==> |slug| <= room || slug[room - 1] != '-'
  {
    GenerateMakesSlug(name);
    var slug := GenerateSlugID(name);
    if |slug| > MAX_SLUG_LENGTH - MAX_SUFFIX_LENGTH {
      CutSlug(slug, MAX_SLUG_LENGTH - MAX_SUFFIX_LENGTH);
    }
  }

  /** A name whose slug is cut right after a hyphen gives a base that is no slug. */
  lemma CutAfterHyphen(fallback: string)
    ensures var name := seq(117, _ => 'a') + "-b";
            GenerateSlugID(name) == name && !IsSlug(Base(name, fallback))
  {
    var name := seq(117, _ => 'a') + "-b";
    assert name[117] == '-' && name[118] == 'b' && forall k :: 0 <= k < 117 ==> name[k] == 'a';
    SlugIsItsOwn(name);
    BaseIsSlug(name, fallback);
  }

  /** Cutting a long slug leaves a slug unless the cut falls right after a hyphen. */
  lemma CutSlug(slug: string, n: nat)
    requires IsSlug(slug) && 0 < n <= |slug|
    ensures IsSlug(slug[..n]) <==> slug[n - 1] != '-'
  {
  }
}
