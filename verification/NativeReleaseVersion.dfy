/** Store version numbers derived from a release version. */
module NativeReleaseVersion {
  import opened Options
  import opened Text

  datatype Version = Version(major: nat, minor: nat, patch: nat, beta: Option<nat>)
  datatype Release = Release(appVersion: string, androidVersionCode: int, iosBuildNumber: string)
  datatype ReleaseError = Unsupported | Colliding | BetaOutOfRange | VersionCodeOutOfRange | BuildNumberOutOfRange

  const STABLE_IOS_BUILD_SLOT := 999
  const MAX_SAFE_INTEGER := 9007199254740991
  const MAX_VERSION_CODE := 2100000000

  // ---------------------------------------------------------------------------------------------
  // Deriving the numbers

  predicate IsNumber(s: string) {
    s != "" && AllDigits(s)
  }

  const BETA := "-beta"

  predicate EndsInBeta(s: string) {
    |s| > |BETA| && s[|s| - |BETA|..] == BETA && IsNumber(s[..|s| - |BETA|])
  }

  /** Three dot-separated numbers, and a fourth behind `-beta.`. */
  function ParseVersion(version: string): Option<Version> {
    var parts := Split(version, {'.'});
    if |parts| == 3 && IsNumber(parts[0]) && IsNumber(parts[1]) && IsNumber(parts[2])
    then Some(Version(DecimalValue(parts[0]), DecimalValue(parts[1]), DecimalValue(parts[2]), None))
    else if |parts| == 4 && IsNumber(parts[0]) && IsNumber(parts[1]) && EndsInBeta(parts[2]) && IsNumber(parts[3])
    then Some(Version(DecimalValue(parts[0]), DecimalValue(parts[1]), DecimalValue(parts[2][..|parts[2]| - |BETA|]),
                      Some(DecimalValue(parts[3]))))
    else None
  }

  function VersionCode(v: Version): int {
    v.major * 1_000_000 + v.minor * 1_000 + v.patch
  }

  function BuildNumber(v: Version): int {
    VersionCode(v) * 1_000 + if v.beta.Some? then v.beta.value else STABLE_IOS_BUILD_SLOT
  }

  function Triple(v: Version): string {
    Decimal(v.major) + "." + Decimal(v.minor) + "." + Decimal(v.patch)
  }

  function Derive(v: Version): Result<Release, ReleaseError> {
    if v.minor > 999 || v.patch > 999 then Err(Colliding)
    else if v.beta.Some? && (v.beta.value < 1 || v.beta.value >= STABLE_IOS_BUILD_SLOT) then Err(BetaOutOfRange)
    else if VersionCode(v) > MAX_SAFE_INTEGER || VersionCode(v) <= 0 || VersionCode(v) * 10 + 9 > MAX_VERSION_CODE
    then Err(VersionCodeOutOfRange)
    else if BuildNumber(v) > MAX_SAFE_INTEGER then Err(BuildNumberOutOfRange)
    else assert BuildNumber(v) >= 0; Ok(Release(Triple(v), VersionCode(v), Decimal(BuildNumber(v))))
  }

  function GetNativeReleaseVersion(version: string): Result<Release, ReleaseError> {
    match ParseVersion(version)
    case None => Err(Unsupported)
    case Some(v) => Derive(v)
  }

  datatype Abi = ArmeabiV7a | Arm64V8a | X86 | X86_64

  function AbiSuffix(abi: Abi): int {
    match abi case ArmeabiV7a => 1 case Arm64V8a => 2 case X86 => 3 case X86_64 => 4
  }

  function FdroidVersionCode(r: Release, abi: Abi): int {
    r.androidVersionCode * 10 + AbiSuffix(abi)
  }

  // ---------------------------------------------------------------------------------------------
  // Which versions are accepted

  predicate Accepted(v: Version) {
    Derive(v).Ok?
  }

  /** The bounds, and that the last test for safe integers never fires. */
  lemma AcceptedExactly(v: Version)
    ensures Accepted(v)
            <==> v.minor <= 999 && v.patch <= 999 && (v.beta.Some? ==> 1 <= v.beta.value <= 998)
                 && 1 <= VersionCode(v) <= 209_999_999
    ensures Derive(v) != Err(BuildNumberOutOfRange)
  {
  }

  // ---------------------------------------------------------------------------------------------
  // Order

  /** The order of the three numbers. */
  predicate Earlier(v: Version, w: Version) {
    || v.major < w.major
    || (v.major == w.major && v.minor < w.minor)
    || (v.major == w.major && v.minor == w.minor && v.patch < w.patch)
  }

  predicate SameTriple(v: Version, w: Version) {
    v.major == w.major && v.minor == w.minor && v.patch == w.patch
  }

  /** Precedence of Semantic Versioning 2.0.0, section 11: a pre-release comes before its release, betas in order. */
  predicate Precedes(v: Version, w: Version) {
    Earlier(v, w) || (SameTriple(v, w) && v.beta.Some? && (w.beta.None? || v.beta.value < w.beta.value))
  }

  /** Android codes order accepted versions as their triples do; equal codes mean equal triples. */
  lemma CodesFollowTriples(v: Version, w: Version)
    requires Accepted(v) && Accepted(w)
    ensures VersionCode(v) < VersionCode(w) <==> Earlier(v, w)
    ensures VersionCode(v) == VersionCode(w) <==> SameTriple(v, w)
  {
  }

  /** iOS build numbers order accepted versions by precedence; equal numbers mean equal versions. */
  lemma BuildsFollowPrecedence(v: Version, w: Version)
    requires Accepted(v) && Accepted(w)
    ensures BuildNumber(v) < BuildNumber(w) <==> Precedes(v, w)
    ensures BuildNumber(v) == BuildNumber(w) <==> v == w
  {
    CodesFollowTriples(v, w);
    hide Derive, VersionCode;
    assert 1 <= VersionCode(v) && 1 <= VersionCode(w);
  }

  // ---------------------------------------------------------------------------------------------
  // From version text to store numbers

  function Print(v: Version): string {
    match v.beta
    case None => Triple(v)
    case Some(n) => Triple(v) + BETA + "." + Decimal(n)
  }

  lemma NumberParts(n: nat)
    ensures IsNumber(Decimal(n)) && DecimalValue(Decimal(n)) == n && forall c | c in Decimal(n) :: c != '.'
  {
    DecimalRoundTrip(n);
  }

  lemma BetaPart(n: nat)
    ensures EndsInBeta(Decimal(n) + BETA)
    ensures (Decimal(n) + BETA)[..|Decimal(n) + BETA| - |BETA|] == Decimal(n)
    ensures forall c | c in Decimal(n) + BETA :: c != '.'
  {
    NumberParts(n);
    assert (Decimal(n) + BETA)[|Decimal(n)|..] == BETA;
  }

  lemma TripleParts(v: Version, tail: string)
    requires forall c | c in tail :: c != '.'
    ensures Split(Decimal(v.major) + "." + Decimal(v.minor) + "." + tail, {'.'})
            == [Decimal(v.major), Decimal(v.minor), tail]
  {
    hide Split, Decimal;
    NumberParts(v.major);
    NumberParts(v.minor);
    SplitHead(Decimal(v.major), '.', Decimal(v.minor) + "." + tail, {'.'});
    SplitHead(Decimal(v.minor), '.', tail, {'.'});
    SplitWhole(tail, {'.'});
    assert Decimal(v.major) + ['.'] + (Decimal(v.minor) + "." + tail)
           == Decimal(v.major) + "." + Decimal(v.minor) + "." + tail;
    assert Decimal(v.minor) + ['.'] + tail == Decimal(v.minor) + "." + tail;
  }

  lemma BetaParts(v: Version, n: nat)
    ensures var third := Decimal(v.patch) + BETA;
            Split(Triple(v) + BETA + "." + Decimal(n), {'.'}) == [Decimal(v.major), Decimal(v.minor), third, Decimal(n)]
  {
    hide Split, Decimal;
    var a, b, third, d := Decimal(v.major), Decimal(v.minor), Decimal(v.patch) + BETA, Decimal(n);
    NumberParts(v.major);
    NumberParts(v.minor);
    NumberParts(n);
    BetaPart(v.patch);
    SplitHead(a, '.', b + "." + (third + "." + d), {'.'});
    SplitHead(b, '.', third + "." + d, {'.'});
    SplitHead(third, '.', d, {'.'});
    SplitWhole(d, {'.'});
    assert a + ['.'] + (b + "." + (third + "." + d)) == Triple(v) + BETA + "." + d;
    assert b + ['.'] + (third + "." + d) == b + "." + (third + "." + d);
    assert third + ['.'] + d == third + "." + d;
  }

  /** Every version has a text that is read as that version. */
  lemma ParseAfterPrint(v: Version)
    ensures ParseVersion(Print(v)) == Some(v)
  {
    NumberParts(v.major);
    NumberParts(v.minor);
    NumberParts(v.patch);
    if v.beta.None? {
      TripleParts(v, Decimal(v.patch));
    } else {
      NumberParts(v.beta.value);
      BetaParts(v, v.beta.value);
      BetaPart(v.patch);
    }
  }

  lemma NumbersOf(v: Version)
    requires Accepted(v)
    ensures 1 <= VersionCode(v) <= 209_999_999 && BuildNumber(v) >= 0
    ensures Derive(v) == Ok(Release(Triple(v), VersionCode(v), Decimal(BuildNumber(v))))
    ensures DecimalValue(Decimal(BuildNumber(v))) == BuildNumber(v)
    ensures ParseVersion(Triple(v)) == Some(v.(beta := None))
  {
    DecimalRoundTrip(BuildNumber(v));
    ParseAfterPrint(v.(beta := None));
    assert Triple(v) == Print(v.(beta := None));
  }

  /** Store numbers tell accepted version texts apart exactly as far as they should. */
  lemma StoreNumbers(s: string, t: string, a: Abi, b: Abi)
    ensures GetNativeReleaseVersion(s).Ok? && GetNativeReleaseVersion(t).Ok? ==>
            var r, q, v, w := GetNativeReleaseVersion(s).value, GetNativeReleaseVersion(t).value,
                              ParseVersion(s).value, ParseVersion(t).value;
            && (r.iosBuildNumber == q.iosBuildNumber <==> v == w)
            && (FdroidVersionCode(r, a) == FdroidVersionCode(q, b) <==> SameTriple(v, w) && a == b)
            && 1 <= FdroidVersionCode(r, a) <= MAX_VERSION_CODE
            && (r.appVersion == q.appVersion <==> SameTriple(v, w))
            && ParseVersion(r.appVersion) == Some(v.(beta := None))
  {
    if GetNativeReleaseVersion(s).Ok? && GetNativeReleaseVersion(t).Ok? {
      var v, w := ParseVersion(s).value, ParseVersion(t).value;
      CodesFollowTriples(v, w);
      BuildsFollowPrecedence(v, w);
      NumbersOf(v);
      NumbersOf(w);
      hide ParseVersion, Derive, VersionCode, BuildNumber, Decimal, DecimalValue;
    }
  }

  /** A beta and its release share every F-Droid code. */
  lemma BetaSharesFdroidCode(v: Version, n: nat, abi: Abi)
    requires v.beta.None? && Accepted(v) && 1 <= n <= 998
    ensures var beta := v.(beta := Some(n));
            && Accepted(beta) && Precedes(beta, v)
            && FdroidVersionCode(Derive(beta).value, abi) == FdroidVersionCode(Derive(v).value, abi)
  {
    AcceptedExactly(v);
    AcceptedExactly(v.(beta := Some(n)));
  }

  /** The four codes of a release follow its Android code times ten, in the order of the table. */
  lemma FdroidCodes(v: Version)
    requires Accepted(v)
    ensures var r, first := Derive(v).value, 10 * (1_000_000 * v.major + 1_000 * v.minor + v.patch) + 1;
            [FdroidVersionCode(r, ArmeabiV7a), FdroidVersionCode(r, Arm64V8a), FdroidVersionCode(r, X86),
             FdroidVersionCode(r, X86_64)] == [first, first + 1, first + 2, first + 3]
  {
  }

  // ---------------------------------------------------------------------------------------------
  // Exactly which texts are versions

  /** The text is three numbers between dots, and then nothing or `-beta.` and a number. */
  predicate IsVersionText(s: string, a: string, b: string, c: string, d: Option<string>) {
    && IsNumber(a) && IsNumber(b) && IsNumber(c) && (d.Some? ==> IsNumber(d.value))
    && s == a + ("." + (b + ("." + (c + if d.Some? then "-beta." + d.value else ""))))
  }

  function Written(a: string, b: string, c: string, d: Option<string>): Version
    requires IsNumber(a) && IsNumber(b) && IsNumber(c) && (d.Some? ==> IsNumber(d.value))
  {
    Version(DecimalValue(a), DecimalValue(b), DecimalValue(c), if d.Some? then Some(DecimalValue(d.value)) else None)
  }

  lemma {:induction false} NumberIsDigits(s: string)
    ensures IsNumber(s) <==> |s| > 0 && forall i | 0 <= i < |s| :: '0' <= s[i] <= '9'
  {
  }

  /** A text is read as a version iff it has that form, and then its numbers are the ones written. */
  lemma {:induction false} VersionTexts(s: string, v: Version)
    ensures ParseVersion(s) == Some(v)
            <==> exists a, b, c, d :: IsVersionText(s, a, b, c, d) && v == Written(a, b, c, d)
  {
    hide ParseVersion, Written, DecimalValue, Split;
    if a, b, c, d :| IsVersionText(s, a, b, c, d) && v == Written(a, b, c, d) {
      TextIsRead(s, a, b, c, d);
    }
    if ParseVersion(s) == Some(v) {
      var a, b, c, d := ReadText(s);
    }
  }

  lemma {:induction false} ReadText(s: string) returns (a: string, b: string, c: string, d: Option<string>)
    requires ParseVersion(s).Some?
    ensures IsVersionText(s, a, b, c, d) && ParseVersion(s).value == Written(a, b, c, d)
  {
    var parts := Split(s, {'.'});
    Joins(s);
    hide Split;
    a, b, c, d := parts[0], parts[1], parts[2], None;
    assert parts == [a] + parts[1..] && parts[1..] == [b] + parts[2..];
    if |parts| == 4 {
      c := parts[2][..|parts[2]| - |BETA|];
      d := Some(parts[3]);
      assert parts[2] == c + parts[2][|c|..] == c + "-beta";
      assert parts[2..] == [c + "-beta"] + [d.value];
      JoinsFour(a, b, c, d.value);
    } else {
      assert parts[2..] == [c];
      JoinsThree(a, b, c);
    }
  }

  lemma {:induction false} JoinsThree(a: string, b: string, c: string)
    ensures Dotted([a] + ([b] + [c])) == a + ("." + (b + ("." + (c + ""))))
  {
    assert ([a] + ([b] + [c]))[1..] == [b] + [c] && ([b] + [c])[1..] == [c];
    assert Dotted([c]) == c && Dotted([b] + [c]) == b + "." + c;
    assert c + "" == c && b + "." + c == b + ("." + c) && a + "." + (b + ("." + c)) == a + ("." + (b + ("." + c)));
  }

  lemma {:induction false} JoinsFour(a: string, b: string, c: string, d: string)
    ensures Dotted([a] + ([b] + ([c + "-beta"] + [d]))) == a + ("." + (b + ("." + (c + ("-beta." + d)))))
  {
    var third := c + "-beta";
    assert ([a] + ([b] + ([third] + [d])))[1..] == [b] + ([third] + [d]);
    assert ([b] + ([third] + [d]))[1..] == [third] + [d] && ([third] + [d])[1..] == [d];
    var tail := c + ("-beta." + d);
    assert Dotted([d]) == d && Dotted([third] + [d]) == third + "." + d == tail;
    assert Dotted([b] + ([third] + [d])) == b + "." + tail;
    assert b + "." + tail == b + ("." + tail);
    assert a + "." + (b + ("." + tail)) == a + ("." + (b + ("." + tail)));
  }

  function Dotted(parts: seq<string>): string {
    if parts == [] then "" else if |parts| == 1 then parts[0] else parts[0] + "." + Dotted(parts[1..])
  }

  lemma {:induction false} Joins(s: string)
    ensures Dotted(Split(s, {'.'})) == s
  {
    if s == "" {
      assert Split(s, {'.'}) == [""];
    } else {
      Joins(s[1..]);
      var rest := Split(s[1..], {'.'});
      assert s == [s[0]] + s[1..];
      if s[0] == '.' {
        assert Split(s, {'.'}) == [""] + rest && ([""] + rest)[1..] == rest;
        assert "" + "." + Dotted(rest) == "." + Dotted(rest);
      } else {
        var head := [s[0]] + rest[0];
        assert Split(s, {'.'}) == [head] + rest[1..] && ([head] + rest[1..])[1..] == rest[1..];
        if |rest| > 1 {
          assert [s[0]] + (rest[0] + "." + Dotted(rest[1..])) == head + "." + Dotted(rest[1..]);
        }
      }
    }
  }

  lemma {:induction false} NoDot(s: string)
    requires IsNumber(s)
    ensures forall c | c in s :: c != '.'
  {
  }

  lemma {:induction false} TextIsRead(s: string, a: string, b: string, c: string, d: Option<string>)
    requires IsVersionText(s, a, b, c, d)
    ensures ParseVersion(s) == Some(Written(a, b, c, d))
  {
    NoDot(a);
    NoDot(b);
    NoDot(c);
    hide Split, DecimalValue, IsNumber;
    if d.None? {
      assert c + "" == c;
      SplitInTwo(a, b + ("." + c));
      SplitInTwo(b, c);
      SplitWhole(c, {'.'});
      assert [a] + ([b] + [c]) == [a, b, c];
    } else {
      var third := c + "-beta";
      BetaEnds(third, c);
      NoDot(d.value);
      assert c + ("-beta." + d.value) == third + ("." + d.value);
      SplitInTwo(a, b + ("." + (third + ("." + d.value))));
      SplitInTwo(b, third + ("." + d.value));
      SplitInTwo(third, d.value);
      SplitWhole(d.value, {'.'});
      assert [a] + ([b] + ([third] + [d.value])) == [a, b, third, d.value];
    }
  }

  lemma {:induction false} SplitInTwo(head: string, tail: string)
    requires forall c | c in head :: c != '.'
    ensures Split(head + ("." + tail), {'.'}) == [head] + Split(tail, {'.'})
  {
    hide Split;
    assert head + ("." + tail) == head + ['.'] + tail;
    SplitHead(head, '.', tail, {'.'});
  }

  lemma {:induction false} BetaEnds(third: string, c: string)
    requires third == c + "-beta" && IsNumber(c)
    ensures EndsInBeta(third) && third[..|third| - |BETA|] == c
  {
    assert third[|third| - |BETA|..] == "-beta" && third[..|third| - |BETA|] == c;
  }

  /** Which error a version meets, in the order of the tests, and the numbers it gets if none. */
  lemma {:induction false} DerivedExactly(v: Version)
    ensures var code := 1_000_000 * v.major + 1_000 * v.minor + v.patch;
            var slot := if v.beta.Some? then v.beta.value else 999;
            if v.minor > 999 || v.patch > 999 then Derive(v) == Err(Colliding)
            else if slot == 0 || slot > 999 || (v.beta.Some? && slot == 999) then Derive(v) == Err(BetaOutOfRange)
            else if code == 0 || code > 209_999_999 then Derive(v) == Err(VersionCodeOutOfRange)
            else
              && Derive(v).Ok? && Derive(v).value.androidVersionCode == code
              && AllDigits(Derive(v).value.iosBuildNumber)
              && DecimalValue(Derive(v).value.iosBuildNumber) == 1_000 * code + slot
              && Derive(v).value.appVersion == Triple(v)
  {
    if Derive(v).Ok? {
      DecimalRoundTrip(BuildNumber(v));
    }
  }
}
