/** String operations the modelled code takes from its language runtime. A `char` stands for one code unit. */
module Text {
  import opened Options

  predicate IsDigit(c: char) {
    '0' <= c <= '9'
  }

  predicate AllDigits(s: string) {
    forall i | 0 <= i < |s| :: IsDigit(s[i])
  }

  function DigitValue(c: char): nat
    requires IsDigit(c)
  {
    c as int - '0' as int
  }

  function DigitChar(d: nat): (c: char)
    requires d < 10
    ensures IsDigit(c) && DigitValue(c) == d
  {
    ('0' as int + d) as char
  }

  /** The number a run of decimal digits denotes; leading zeros are allowed. */
  function DecimalValue(s: string): nat
    requires AllDigits(s)
  {
    if s == "" then 0 else 10 * DecimalValue(s[..|s| - 1]) + DigitValue(s[|s| - 1])
  }

  /** The shortest decimal notation of a number. */
  function Decimal(n: nat): (s: string)
    ensures s != "" && AllDigits(s)
  {
    if n < 10 then [DigitChar(n)] else Decimal(n / 10) + [DigitChar(n % 10)]
  }

  lemma {:induction false} DecimalRoundTrip(n: nat)
    ensures DecimalValue(Decimal(n)) == n
  {
    if n >= 10 {
      DecimalRoundTrip(n / 10);
      assert Decimal(n)[..|Decimal(n)| - 1] == Decimal(n / 10);
    } else {
      assert Decimal(n)[..0] == "";
    }
  }

  /** Cuts `s` at every character of `seps`; the separators are dropped and empty parts are kept. */
  function Split(s: string, seps: set<char>): (parts: seq<string>)
    ensures parts != []
  {
    if s == "" then [""]
    else
      var rest := Split(s[1..], seps);
      if s[0] in seps then [""] + rest else [[s[0]] + rest[0]] + rest[1..]
  }

  /** A separator-free head followed by a separator is the first part. */
  lemma {:induction false} SplitHead(head: string, sep: char, tail: string, seps: set<char>)
    requires sep in seps
    requires forall c | c in head :: c !in seps
    ensures Split(head + [sep] + tail, seps) == [head] + Split(tail, seps)
  {
    var s := head + [sep] + tail;
    if head == "" {
      assert s[1..] == tail;
    } else {
      assert s[1..] == head[1..] + [sep] + tail;
      SplitHead(head[1..], sep, tail, seps);
      assert [head[0]] + head[1..] == head;
    }
  }

  /** A text without separators is its own only part. */
  lemma {:induction false} SplitWhole(s: string, seps: set<char>)
    requires forall c | c in s :: c !in seps
    ensures Split(s, seps) == [s]
  {
    if s != "" {
      SplitWhole(s[1..], seps);
      assert [s[0]] + s[1..] == s;
    }
  }

  /** What the language calls white space: `\s` in its patterns, and what its `trim` removes. */
  predicate IsSpace(c: char) {
    var n := c as int;
    || 0x09 <= n <= 0x0D || n == 0x20 || n == 0xA0 || n == 0x1680 || 0x2000 <= n <= 0x200A
    || n == 0x2028 || n == 0x2029 || n == 0x202F || n == 0x205F || n == 0x3000 || n == 0xFEFF
  }

  /** What `.` does not match in its patterns. */
  predicate IsLineTerminator(c: char) {
    var n := c as int;
    n == 0x0A || n == 0x0D || n == 0x2028 || n == 0x2029
  }

  /** The first `c` at or after `start`. */
  function IndexOf(s: string, c: char, start: nat): (r: Option<nat>)
    ensures r.Some? ==> start <= r.value < |s| && s[r.value] == c && c !in s[start..r.value]
    ensures r.None? && start <= |s| ==> c !in s[start..]
    decreases |s| - start
  {
    if start >= |s| then None
    else if s[start] == c then Some(start)
    else
      var r := IndexOf(s, c, start + 1);
      assert s[start..] == [s[start]] + s[start + 1..];
      assert r.Some? ==> s[start..r.value] == [s[start]] + s[start + 1..r.value];
      r
  }

  /** The last `c`. */
  function LastIndexOf(s: string, c: char): (r: Option<nat>)
    ensures r.Some? ==> r.value < |s| && s[r.value] == c && c !in s[r.value + 1..]
    ensures r.None? ==> c !in s
  {
    if s == "" then None
    else
      var last := |s| - 1;
      assert s == s[..last] + [s[last]];
      if s[last] == c then Some(last)
      else
        var r := LastIndexOf(s[..last], c);
        assert r.Some? ==> s[r.value + 1..] == s[..last][r.value + 1..] + [s[last]];
        r
  }

  /** Text after the last `c` determines where it is. */
  lemma {:induction false} LastIndexOfAt(head: string, c: char, tail: string)
    requires c !in tail
    ensures LastIndexOf(head + [c] + tail, c) == Some(|head|)
  {
    var s := head + [c] + tail;
    if tail == "" {
      assert s[|s| - 1] == c;
    } else {
      var rest := tail[..|tail| - 1];
      assert tail == rest + [tail[|tail| - 1]];
      LastIndexOfAt(head, c, rest);
      assert s[..|s| - 1] == head + [c] + rest;
    }
  }

  function TrimStart(s: string): string {
    if s != "" && IsSpace(s[0]) then TrimStart(s[1..]) else s
  }

  function TrimEnd(s: string): string {
    if s != "" && IsSpace(s[|s| - 1]) then TrimEnd(s[..|s| - 1]) else s
  }

  function Trim(s: string): string {
    TrimEnd(TrimStart(s))
  }

  predicate Trimmed(s: string) {
    s != "" ==> !IsSpace(s[0]) && !IsSpace(s[|s| - 1])
  }

  predicate AllSpace(s: string) {
    forall i | 0 <= i < |s| :: IsSpace(s[i])
  }

  lemma {:induction false} TrimStartStarts(s: string)
    ensures TrimStart(s) != "" ==> !IsSpace(TrimStart(s)[0])
    ensures forall c | c in TrimStart(s) :: c in s
    ensures s != "" && !IsSpace(s[0]) ==> TrimStart(s) == s
    ensures s != "" && !IsSpace(s[|s| - 1]) ==> TrimStart(s) != "" && TrimStart(s)[|TrimStart(s)| - 1] == s[|s| - 1]
  {
    if s != "" && IsSpace(s[0]) {
      TrimStartStarts(s[1..]);
    }
  }

  lemma {:induction false} TrimEndEnds(s: string)
    ensures TrimEnd(s) != "" ==> !IsSpace(TrimEnd(s)[|TrimEnd(s)| - 1])
    ensures forall c | c in TrimEnd(s) :: c in s
    ensures s != "" && !IsSpace(s[0]) ==> TrimEnd(s) != "" && TrimEnd(s)[0] == s[0]
    ensures s != "" && !IsSpace(s[|s| - 1]) ==> TrimEnd(s) == s
  {
    if s != "" && IsSpace(s[|s| - 1]) {
      TrimEndEnds(s[..|s| - 1]);
    }
  }

  /** Trimming leaves a text without white space at its ends, all of it if there is none. */
  lemma {:induction false} TrimTrims(s: string)
    ensures Trimmed(Trim(s)) && forall c | c in Trim(s) :: c in s
    ensures Trimmed(s) ==> Trim(s) == s
    ensures s != "" && !IsSpace(s[0]) ==> Trim(s) != "" && Trim(s)[0] == s[0]
  {
    TrimStartStarts(s);
    TrimEndEnds(TrimStart(s));
    assert TrimStart("") == "" && TrimEnd("") == "";
    hide TrimStart, TrimEnd;
  }

  lemma {:induction false} TakenOffFront(s: string) returns (before: string)
    ensures AllSpace(before) && s == before + TrimStart(s)
  {
    before := "";
    if s != "" && IsSpace(s[0]) {
      before := TakenOffFront(s[1..]);
      assert s == [s[0]] + s[1..] == [s[0]] + before + TrimStart(s);
      before := [s[0]] + before;
    }
  }

  lemma {:induction false} TakenOffBack(s: string) returns (after: string)
    ensures AllSpace(after) && s == TrimEnd(s) + after
  {
    after := "";
    if s != "" && IsSpace(s[|s| - 1]) {
      var rest := s[..|s| - 1];
      after := TakenOffBack(rest);
      assert s == rest + [s[|s| - 1]] == TrimEnd(s) + (after + [s[|s| - 1]]);
      after := after + [s[|s| - 1]];
    }
  }

  /** What trimming takes off is white space, at the two ends. */
  lemma {:induction false} TakenOff(s: string) returns (before: string, after: string)
    ensures AllSpace(before) && AllSpace(after) && s == before + (Trim(s) + after)
  {
    before := TakenOffFront(s);
    after := TakenOffBack(TrimStart(s));
    hide TrimStart, TrimEnd, AllSpace;
  }
}
