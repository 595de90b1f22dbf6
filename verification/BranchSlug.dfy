/** Branch slugs: words in lower case joined by hyphens, cut to a length, against the validator's rules. */
module BranchSlug {
  import opened Options

  predicate IsWordChar(c: char) {
    'a' <= c <= 'z' || '0' <= c <= '9'
  }

  predicate IsSlugChar(c: char) {
    IsWordChar(c) || c == '-'
  }

  /** Lower-casing, of which only this is used: it leaves slug characters alone. */
  ghost predicate FixesSlugs(lower: string -> string) {
    forall s | forall i | 0 <= i < |s| :: IsSlugChar(s[i]) :: lower(s) == s
  }

  // ---------------------------------------------------------------------------------------------
  // The validator

  datatype SlugError = Empty | TooLong | BadCharacter | EdgeHyphen | DoubleHyphen

  predicate HasDoubleHyphen(s: string) {
    exists i | 0 <= i < |s| - 1 :: s[i] == '-' && s[i + 1] == '-'
  }

  function Validate(slug: string): Option<SlugError> {
    if slug == "" then Some(Empty)
    else if |slug| > 100 then Some(TooLong)
    else if exists i | 0 <= i < |slug| :: !IsSlugChar(slug[i]) && slug[i] != '/' then Some(BadCharacter)
    else if slug[0] == '-' || slug[|slug| - 1] == '-' then Some(EdgeHyphen)
    else if HasDoubleHyphen(slug) then Some(DoubleHyphen)
    else None
  }

  // ---------------------------------------------------------------------------------------------
  // Slugify

  const MAX_SLUG_LENGTH := 50

  /** Every run of other characters becomes one hyphen. */
  function Dash(s: string): string {
    if s == "" then ""
    else if IsWordChar(s[0]) then [s[0]] + Dash(s[1..])
    else if |s| > 1 && !IsWordChar(s[1]) then Dash(s[1..])
    else "-" + Dash(s[1..])
  }

  function StripFront(s: string): string {
    if s != "" && s[0] == '-' then StripFront(s[1..]) else s
  }

  function StripBack(s: string): string {
    if s != "" && s[|s| - 1] == '-' then StripBack(s[..|s| - 1]) else s
  }

  function LastHyphen(s: string): (h: int)
    ensures h < |s|
  {
    if s == "" then -1 else if s[|s| - 1] == '-' then |s| - 1 else LastHyphen(s[..|s| - 1])
  }

  function Cut(slug: string): string {
    if |slug| <= MAX_SLUG_LENGTH then slug
    else
      var truncated := slug[..MAX_SLUG_LENGTH];
      var lastHyphen := LastHyphen(truncated);
      if 2 * lastHyphen > MAX_SLUG_LENGTH then truncated[..lastHyphen] else StripBack(truncated)
  }

  function Slugify(lower: string -> string, input: string): string {
    Cut(StripBack(StripFront(Dash(lower(input)))))
  }

  // ---------------------------------------------------------------------------------------------
  // Reference: the words of a text, joined

  /** The runs of word characters. */
  function Words(s: string): seq<string> {
    if s == "" then []
    else if !IsWordChar(s[0]) then Words(s[1..])
    else
      var rest := Words(s[1..]);
      if |s| > 1 && IsWordChar(s[1]) && rest != [] then [[s[0]] + rest[0]] + rest[1..] else [[s[0]]] + rest
  }

  function Hyphenated(words: seq<string>): string {
    if words == [] then "" else if |words| == 1 then words[0] else words[0] + "-" + Hyphenated(words[1..])
  }

  lemma {:induction false} WordsOk(s: string)
    ensures forall w | w in Words(s) :: w != "" && forall i | 0 <= i < |w| :: IsWordChar(w[i])
    ensures s != "" && (IsWordChar(s[0]) || IsWordChar(s[|s| - 1])) ==> Words(s) != []
  {
    if s != "" {
      WordsOk(s[1..]);
    }
  }

  lemma {:induction false} GrowFirst(c: char, words: seq<string>)
    requires words != []
    ensures Hyphenated([[c] + words[0]] + words[1..]) == [c] + Hyphenated(words)
  {
    if |words| == 1 {
      assert [[c] + words[0]] + words[1..] == [[c] + words[0]];
    } else {
      assert ([[c] + words[0]] + words[1..])[1..] == words[1..];
      assert [c] + words[0] + "-" + Hyphenated(words[1..]) == [c] + (words[0] + "-" + Hyphenated(words[1..]));
    }
  }

  /** The hyphenated words of `s`, with a hyphen where other characters stand at an end. */
  function Framed(s: string): string {
    if s == "" then ""
    else if Words(s) == [] then "-"
    else Edge(s[0]) + Hyphenated(Words(s)) + Edge(s[|s| - 1])
  }

  function Edge(c: char): string {
    if IsWordChar(c) then "" else "-"
  }

  lemma FramedAfterOther(s: string)
    requires |s| > 1 && !IsWordChar(s[0])
    ensures Framed(s) == if IsWordChar(s[1]) then "-" + Framed(s[1..]) else Framed(s[1..])
  {
    hide Hyphenated;
    var rest := s[1..];
    WordsOk(rest);
    assert rest[0] == s[1] && rest[|rest| - 1] == s[|s| - 1] && Words(s) == Words(rest);
    if IsWordChar(s[1]) {
      assert "-" + ("" + Hyphenated(Words(rest)) + Edge(s[|s| - 1]))
             == "-" + Hyphenated(Words(rest)) + Edge(s[|s| - 1]);
    }
  }

  lemma WordsAfterWord(s: string)
    requires |s| > 1 && IsWordChar(s[0])
    ensures Words(s) != [] && (IsWordChar(s[1]) ==> Words(s[1..]) != [])
    ensures var rest := Words(s[1..]);
            Hyphenated(Words(s)) == if IsWordChar(s[1]) then [s[0]] + Hyphenated(rest)
                                    else if rest == [] then [s[0]] else [s[0]] + "-" + Hyphenated(rest)
  {
    WordsOk(s[1..]);
    if IsWordChar(s[1]) {
      GrowFirst(s[0], Words(s[1..]));
    } else {
      assert Words(s)[1..] == Words(s[1..]);
    }
  }

  lemma FramedAfterWord(s: string)
    requires |s| > 1 && IsWordChar(s[0])
    ensures Framed(s) == [s[0]] + Framed(s[1..])
  {
    var rest := s[1..];
    WordsAfterWord(s);
    WordsOk(rest);
    assert rest[0] == s[1] && rest[|rest| - 1] == s[|s| - 1];
    hide Words, Hyphenated;
    var joined, back := Hyphenated(Words(rest)), Edge(s[|s| - 1]);
    if IsWordChar(s[1]) {
      Regroup([s[0]], "", joined, back);
      assert [s[0]] + "" == [s[0]];
    } else if Words(rest) == [] {
      assert "" + [s[0]] == [s[0]];
    } else {
      Regroup([s[0]], "-", joined, back);
    }
  }

  lemma Regroup(a: string, b: string, c: string, d: string)
    ensures a + (b + c + d) == "" + (a + b + c) + d
  {
  }

  lemma {:induction false} DashIsWords(s: string)
    ensures Dash(s) == Framed(s)
  {
    if |s| == 1 {
      assert s == [s[0]] && s[1..] == "";
      if IsWordChar(s[0]) {
        assert Words(s) == [s];
        assert "" + s == s && s + "" == s;
      } else {
        assert Words(s) == [];
        assert Dash(s[1..]) == "" && "-" + "" == "-";
      }
    } else if s != "" {
      DashIsWords(s[1..]);
      if IsWordChar(s[0]) {
        FramedAfterWord(s);
      } else {
        FramedAfterOther(s);
      }
    }
  }

  lemma {:induction false} HyphenatedEnds(words: seq<string>)
    requires words != [] && forall w | w in words :: w != "" && forall i | 0 <= i < |w| :: IsWordChar(w[i])
    ensures var s := Hyphenated(words); s != "" && s[0] != '-' && s[|s| - 1] != '-'
    ensures IsTidy(Hyphenated(words))
  {
    assert words[0] in words;
    if |words| > 1 {
      assert forall w | w in words[1..] :: w in words;
      HyphenatedEnds(words[1..]);
      TidyJoin(words[0], Hyphenated(words[1..]));
    }
  }

  /** Slug characters only, no hyphen at an end, no two in a row. */
  predicate IsTidy(s: string) {
    && (forall i | 0 <= i < |s| :: IsSlugChar(s[i]))
    && (s != "" ==> s[0] != '-' && s[|s| - 1] != '-')
    && !HasDoubleHyphen(s)
  }

  lemma TidyJoin(word: string, rest: string)
    requires word != "" && (forall i | 0 <= i < |word| :: IsWordChar(word[i])) && rest != "" && IsTidy(rest)
    ensures IsTidy(word + "-" + rest)
  {
    var s := word + "-" + rest;
    assert forall i | 0 <= i < |word| :: s[i] == word[i];
    assert s[|word|] == '-' && forall i | |word| < i < |s| :: s[i] == rest[i - |word| - 1];
  }

  lemma StripOnce(front: string, s: string, back: string)
    requires front in {"", "-"} && back in {"", "-"} && s != "" && s[0] != '-' && s[|s| - 1] != '-'
    ensures StripBack(StripFront(front + s + back)) == s
  {
    var t := front + s + back;
    assert StripFront(t) == s + back by {
      if front == "-" {
        assert t[1..] == s + back;
      } else {
        assert t == s + back;
      }
    }
    if back == "-" {
      assert (s + back)[..|s + back| - 1] == s;
    } else {
      assert s + back == s;
    }
  }

  /** Before cutting, a slug is the words of the lower-cased input joined by single hyphens. */
  lemma SlugIsWords(s: string)
    ensures StripBack(StripFront(Dash(s))) == Hyphenated(Words(s)) && IsTidy(Hyphenated(Words(s)))
  {
    DashIsWords(s);
    WordsOk(s);
    if Words(s) == [] {
      if s != "" {
        assert StripFront("-") == StripFront("-"[1..]) == "";
      }
    } else {
      HyphenatedEnds(Words(s));
      StripOnce(Edge(s[0]), Hyphenated(Words(s)), Edge(s[|s| - 1]));
    }
  }

  // ---------------------------------------------------------------------------------------------
  // Cutting

  lemma {:induction false} LastHyphenIsLast(s: string)
    ensures var h := LastHyphen(s);
            -1 <= h < |s| && (h >= 0 ==> s[h] == '-') && forall i | h < i < |s| :: s[i] != '-'
  {
    if s != "" && s[|s| - 1] != '-' {
      LastHyphenIsLast(s[..|s| - 1]);
    }
  }

  /** A tidy text stays tidy when cut; it keeps 26 characters or more, and the last strip finds nothing. */
  lemma CutKeepsTidy(s: string)
    requires IsTidy(s)
    ensures var r := Cut(s);
            && IsTidy(r) && |r| <= MAX_SLUG_LENGTH && |r| <= |s| && r == s[..|r|]
            && (|s| <= MAX_SLUG_LENGTH ==> r == s)
            && (|s| > MAX_SLUG_LENGTH ==> 26 <= |r|)
            && (|s| > MAX_SLUG_LENGTH && !(s[|r|] == '-' && |r| < MAX_SLUG_LENGTH) ==> r == s[..MAX_SLUG_LENGTH])
  {
    if |s| > MAX_SLUG_LENGTH {
      var truncated := s[..MAX_SLUG_LENGTH];
      var h := LastHyphen(truncated);
      LastHyphenIsLast(truncated);
      if 2 * h > MAX_SLUG_LENGTH {
        assert s[h] == '-';
        if s[h - 1] == '-' {
          assert HasDoubleHyphen(s);
        }
        PrefixIsTidy(s, h);
      } else {
        StripFindsNothing(s);
        PrefixIsTidy(s, MAX_SLUG_LENGTH);
      }
    }
  }

  lemma PrefixIsTidy(s: string, n: nat)
    requires IsTidy(s) && 0 < n <= |s| && s[n - 1] != '-'
    ensures IsTidy(s[..n])
  {
    assert forall i | 0 <= i < n :: s[..n][i] == s[i];
  }

  /** Where the code strips trailing hyphens from a cut slug there are none. */
  lemma StripFindsNothing(s: string)
    requires |s| > MAX_SLUG_LENGTH && 2 * LastHyphen(s[..MAX_SLUG_LENGTH]) <= MAX_SLUG_LENGTH
    ensures StripBack(s[..MAX_SLUG_LENGTH]) == s[..MAX_SLUG_LENGTH] && s[MAX_SLUG_LENGTH - 1] != '-'
  {
    LastHyphenIsLast(s[..MAX_SLUG_LENGTH]);
  }

  // ---------------------------------------------------------------------------------------------
  // The validator, exactly

  predicate IsNameChar(c: char) {
    'a' <= c <= 'z' || '0' <= c <= '9' || c == '-' || c == '/'
  }

  /** What is wrong with a branch name, the first complaint that applies. */
  lemma {:induction false} ValidatesExactly(s: string)
    ensures Validate(s)
            == if |s| == 0 then Some(Empty)
               else if |s| >= 101 then Some(TooLong)
               else if !forall i | 0 <= i < |s| :: IsNameChar(s[i]) then Some(BadCharacter)
               else if s[0] == '-' || s[|s| - 1] == '-' then Some(EdgeHyphen)
               else if exists a, b :: s == a + "--" + b then Some(DoubleHyphen)
               else None
  {
    DoubleHyphenText(s);
  }

  lemma {:induction false} DoubleHyphenText(s: string)
    ensures HasDoubleHyphen(s) <==> exists a, b :: s == a + "--" + b
  {
    if HasDoubleHyphen(s) {
      var i :| 0 <= i < |s| - 1 && s[i] == '-' && s[i + 1] == '-';
      assert s == s[..i] + "--" + s[i + 2..];
    }
    if a, b :| s == a + "--" + b {
      assert s[|a|] == '-' && s[|a| + 1] == '-';
    }
  }

  // ---------------------------------------------------------------------------------------------
  // The slug

  /** Tidy and short: exactly the texts that are empty or pass the validator without slashes, within the slug length. */
  lemma TidyIsValid(s: string)
    requires |s| <= MAX_SLUG_LENGTH
    ensures IsTidy(s) <==> s == "" || (Validate(s) == None && '/' !in s)
  {
    if s != "" && Validate(s) == None && '/' !in s {
      forall i | 0 <= i < |s| ensures IsSlugChar(s[i]) {
        assert s[i] in s;
      }
    }
  }

  /** A slug is short, empty or valid, starts as the joined words do, and is empty only without words. */
  lemma SlugIsValid(lower: string -> string, input: string)
    ensures var slug, words := Slugify(lower, input), Hyphenated(Words(lower(input)));
            && |slug| <= 50
            && (slug == "" || Validate(slug) == None)
            && |slug| <= |words| && slug == words[..|slug|]
            && (|words| <= 50 ==> slug == words)
            && (|words| > 50 ==> 26 <= |slug|)
  {
    SlugIsWords(lower(input));
    CutKeepsTidy(Hyphenated(Words(lower(input))));
    TidyIsValid(Slugify(lower, input));
  }

  lemma {:induction false} TidyIsDashed(s: string)
    requires (forall i | 0 <= i < |s| :: IsSlugChar(s[i])) && !HasDoubleHyphen(s)
    ensures Dash(s) == s
  {
    if s != "" {
      assert forall i | 0 <= i < |s| - 1 :: s[1..][i] == s[i + 1];
      TidyIsDashed(s[1..]);
      assert [s[0]] + s[1..] == s;
      assert |s| > 1 && s[0] == '-' ==> s[0 + 1] != '-';
    }
  }

  /** What slugs are: the texts the operation leaves alone. */
  lemma SlugsAreFixed(lower: string -> string, s: string)
    requires FixesSlugs(lower)
    ensures Slugify(lower, s) == s <==> |s| <= 50 && (s == "" || (Validate(s) == None && '/' !in s))
  {
    SlugIsWords(lower(s));
    CutKeepsTidy(Hyphenated(Words(lower(s))));
    if Slugify(lower, s) == s {
      TidyIsValid(s);
    }
    if |s| <= MAX_SLUG_LENGTH && (s == "" || (Validate(s) == None && '/' !in s)) {
      TidyIsValid(s);
      TidyIsDashed(s);
    }
  }

  lemma Idempotent(lower: string -> string, input: string)
    requires FixesSlugs(lower)
    ensures Slugify(lower, Slugify(lower, input)) == Slugify(lower, input)
  {
    SlugIsWords(lower(input));
    CutKeepsTidy(Hyphenated(Words(lower(input))));
    TidyIsValid(Slugify(lower, input));
    SlugsAreFixed(lower, Slugify(lower, input));
  }
}
